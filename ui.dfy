/** The UI state controller: the module-level `isLoading` and
    `currentSearchTerm` together with the parts of the page the handlers
    overwrite (the input's value, the button's `disabled`, the spinner, the
    error banner, the result-count line, the grid, the modal and its
    content). The asynchronous `searchMovies` is split at its `await`:
    `SearchMovies` is the part that runs on submission, `FinishSearch` the
    continuation that runs when the request has settled. */
module Ui {
  import opened Strings
  import opened Render
  import opened Responses

  class Page {
    var isLoading: bool
    var currentSearchTerm: string
    var inputValue: string
    var buttonDisabled: bool
    var spinnerVisible: bool
    var errorVisible: bool
    var errorText: string
    var statsText: string
    var grid: seq<Card>
    var modalOpen: bool
    var scrollLocked: bool   // `document.body.style.overflow` is 'hidden'
    var details: Option<DetailView>

    /** The search button is disabled exactly while loading or while the
        trimmed input is empty; the spinner shows exactly while loading; the
        page scroll is locked exactly while the modal is open. */
    ghost predicate Valid()
      reads this
    {
      buttonDisabled == (isLoading || Trim(inputValue) == [])
      && spinnerVisible == isLoading
      && scrollLocked == modalOpen
    }

    /** The page as loaded: empty input, nothing shown, nothing loading. */
    constructor ()
      ensures Valid()
      ensures !isLoading && currentSearchTerm == [] && inputValue == [] && buttonDisabled
      ensures !errorVisible && statsText == [] && grid == [] && !modalOpen && details.None?
    {
      isLoading, currentSearchTerm, inputValue := false, [], [];
      buttonDisabled, spinnerVisible := true, false;
      errorVisible, errorText, statsText, grid := false, [], [], [];
      modalOpen, scrollLocked, details := false, false, None;
    }

    /** `updateSearchButtonState(query)` */
    method UpdateSearchButtonState(query: string)
      modifies this`buttonDisabled
      ensures buttonDisabled == (isLoading || Trim(query) == [])
    {
      buttonDisabled := isLoading || Trim(query) == [];
    }

    /** `setLoadingState(loading)`: leaving the loading state re-evaluates the
        button from the current input. */
    method SetLoadingState(loading: bool)
      modifies this`isLoading, this`spinnerVisible, this`buttonDisabled
      ensures isLoading == loading && spinnerVisible == loading
      ensures buttonDisabled == (loading || Trim(inputValue) == [])
    {
      isLoading := loading;
      spinnerVisible := loading;
      if loading {
        buttonDisabled := true;
      } else {
        UpdateSearchButtonState(Trim(inputValue));
        assert Trim(Trim(inputValue)) == Trim(inputValue) by { TrimIdempotent(inputValue); }
      }
    }

    /** `showError(message)`; the timer that hides it later is not modelled. */
    method ShowError(message: string)
      modifies this`errorVisible, this`errorText
      ensures errorVisible && errorText == message
    {
      errorText := message;
      errorVisible := true;
    }

    /** `hideError()`: idempotent, touches nothing but the banner's visibility. */
    method HideError()
      modifies this`errorVisible
      ensures !errorVisible
    {
      errorVisible := false;
    }

    /** `handleInputChange`: the user typed `value`. A non-blank input hides
        the banner; the button follows the input. */
    method HandleInputChange(value: string)
      requires Valid()
      modifies this`inputValue, this`errorVisible, this`buttonDisabled
      ensures Valid() && inputValue == value
      ensures errorVisible == (old(errorVisible) && AllWhiteSpace(value))
    {
      inputValue := value;
      var query := Trim(value);
      TrimEmptyIff(value);
      if query != [] && errorVisible {
        HideError();
      }
      UpdateSearchButtonState(query);
      assert Trim(query) == query by { TrimIdempotent(value); }
    }

    /** The part of `searchMovies(query)` before its `await`: nothing at all
        happens while a search is loading; otherwise loading starts, the
        banner is hidden and the term is recorded. */
    method SearchMovies(query: string) returns (started: bool)
      requires Valid()
      modifies this`isLoading, this`spinnerVisible, this`buttonDisabled, this`errorVisible, this`currentSearchTerm
      ensures Valid()
      ensures started == !old(isLoading)
      ensures !started ==> unchanged(this)
      ensures started ==> isLoading && buttonDisabled && spinnerVisible && !errorVisible && currentSearchTerm == query
    {
      if isLoading {
        return false;
      }
      SetLoadingState(true);
      HideError();
      currentSearchTerm := query;
      started := true;
    }

    /** `handleSearch`: validation errors are shown and no search starts;
        a valid trimmed query is passed to `SearchMovies`. */
    method HandleSearch() returns (started: bool)
      requires Valid()
      modifies this`isLoading, this`spinnerVisible, this`buttonDisabled, this`errorVisible, this`errorText, this`currentSearchTerm
      ensures Valid()
      ensures started <==> !old(isLoading) && ValidateQuery(inputValue).Accepted?
      ensures !started ==> isLoading == old(isLoading) && currentSearchTerm == old(currentSearchTerm)
      ensures ValidateQuery(inputValue) == MissingTitle ==> errorVisible && errorText == MissingTitleMessage
      ensures ValidateQuery(inputValue) == TooShort ==> errorVisible && errorText == TooShortMessage
      ensures ValidateQuery(inputValue).Accepted? ==> errorText == old(errorText)
      ensures ValidateQuery(inputValue).Accepted? && old(isLoading) ==> unchanged(this)
      ensures started ==> isLoading && buttonDisabled && !errorVisible && currentSearchTerm == Trim(inputValue)
    {
      match ValidateQuery(inputValue)
      case MissingTitle =>
        ShowError(MissingTitleMessage);
        started := false;
      case TooShort =>
        ShowError(TooShortMessage);
        started := false;
      case Accepted(query) =>
        started := SearchMovies(query);
    }

    /** `handleKeyPress(key)`: Enter submits, but never while loading. */
    method HandleKeyPress(key: string) returns (started: bool)
      requires Valid()
      modifies this`isLoading, this`spinnerVisible, this`buttonDisabled, this`errorVisible, this`errorText, this`currentSearchTerm
      ensures Valid()
      ensures key != "Enter" || old(isLoading) ==> !started && unchanged(this)
      ensures started <==> key == "Enter" && !old(isLoading) && ValidateQuery(inputValue).Accepted?
      ensures !started ==> isLoading == old(isLoading) && currentSearchTerm == old(currentSearchTerm)
      ensures key == "Enter" && !old(isLoading) && ValidateQuery(inputValue) == MissingTitle ==>
        errorVisible && errorText == MissingTitleMessage
      ensures key == "Enter" && !old(isLoading) && ValidateQuery(inputValue) == TooShort ==>
        errorVisible && errorText == TooShortMessage
      ensures ValidateQuery(inputValue).Accepted? ==> errorText == old(errorText)
      ensures started ==> isLoading && buttonDisabled && !errorVisible && currentSearchTerm == Trim(inputValue)
    {
      started := false;
      if key == "Enter" && !isLoading {
        started := HandleSearch();
      }
    }

    /** `displayMovies(movies)`: the grid is replaced, never appended to, by
        one card per result; an absent or empty list clears it. */
    method DisplayMovies(movies: Option<seq<Movie>>)
      modifies this`grid
      ensures |grid| == |movies.GetOr([])|
      ensures forall i :: 0 <= i < |grid| ==> grid[i] == CreateMovieCard(movies.value[i])
    {
      if movies.None? || |movies.value| == 0 {
        grid := [];
        return;
      }
      grid := Cards(movies.value);
    }

    /** `updateSearchStats(count, query)` */
    method UpdateSearchStats(count: nat, query: string)
      modifies this`statsText
      ensures statsText == StatsText(count, query)
    {
      statsText := StatsText(count, query);
    }

    /** `handleSearchError(error)` with `navigator.onLine` given as `online`. */
    method HandleSearchError(message: string, online: bool)
      modifies this`errorVisible, this`errorText
      ensures errorVisible && errorText == NetworkErrorMessage(online, message)
    {
      var text := NetworkPrefix;
      if !online {
        text := text + OfflineAdvice;
      } else if Contains(message, FailedToFetch) {
        text := text + FetchAdvice;
      } else {
        text := text + RetryAdvice;
      }
      ShowError(text);
    }

    /** `handleApiError(errorMsg, query)`; returns the message of the error it
        throws when the provider sent no error text. */
    method HandleApiError(error: Option<string>, query: string) returns (raised: Option<string>)
      modifies this`errorVisible, this`errorText, this`grid, this`statsText
      ensures var h := ApiErrorHandled(error, query);
        raised == h.raised
        && errorVisible == (old(errorVisible) || h.banner.Some?)
        && errorText == h.banner.GetOr(old(errorText))
        && grid == h.grid.GetOr(old(grid))
        && statsText == h.stats.GetOr(old(statsText))
    {
      if error == Some(NotFoundError) {
        ShowError(NotFoundMessage(query));
        DisplayMovies(Some([]));
      } else if error.None? {
        return Some(UndefinedPropertyMessage("includes"));
      } else if Contains(error.value, InvalidKeyMarker) {
        ShowError(InvalidKeyMessage);
      } else {
        ShowError(SearchErrorPrefix + error.value);
      }
      UpdateSearchStats(0, query);
      raised := None;
    }

    /** `handleSearchResponse(data, query)`; returns the message of the error
        it throws, if any. */
    method HandleSearchResponse(data: SearchData, query: string) returns (raised: Option<string>)
      modifies this`errorVisible, this`errorText, this`grid, this`statsText
      ensures var h := ResponseHandled(data, query);
        raised == h.raised
        && errorVisible == (old(errorVisible) || h.banner.Some?)
        && errorText == h.banner.GetOr(old(errorText))
        && grid == h.grid.GetOr(old(grid))
        && statsText == h.stats.GetOr(old(statsText))
    {
      if data.response == Some("True") {
        DisplayMovies(data.search);
        if data.search.None? {
          return Some(UndefinedPropertyMessage("length"));
        }
        UpdateSearchStats(|data.search.value|, query);
        raised := None;
      } else {
        raised := HandleApiError(data.error, query);
      }
    }

    /** The `try`/`catch` of `searchMovies` once the request has settled:
        the response is handled, and an error thrown on the way goes to
        `handleSearchError`. */
    method HandleOutcome(outcome: SearchOutcome, online: bool, query: string)
      modifies this`errorVisible, this`errorText, this`grid, this`statsText
      ensures var e := SearchOutcomeEffect(outcome, online, query);
        errorVisible == (old(errorVisible) || e.banner.Some?)
        && errorText == e.banner.GetOr(old(errorText))
        && grid == e.grid.GetOr(old(grid))
        && statsText == e.stats.GetOr(old(statsText))
    {
      match outcome {
        case Rejected(message) =>
          HandleSearchError(message, online);
        case HttpFailure(status) =>
          HandleSearchError(HttpErrorMessage(status), online);
        case Answered(data) =>
          var raised := HandleSearchResponse(data, query);
          if raised.Some? {
            HandleSearchError(raised.value, online);
          }
      }
    }

    /** The continuation of `searchMovies` once the request has settled: the
        outcome is handled, and the `finally` leaves the loading state on
        every path. */
    method FinishSearch(outcome: SearchOutcome, online: bool)
      requires Valid() && isLoading
      modifies this`isLoading, this`spinnerVisible, this`buttonDisabled, this`errorVisible, this`errorText, this`grid, this`statsText
      ensures Valid() && !isLoading && !spinnerVisible
      ensures buttonDisabled == (Trim(inputValue) == [])
      ensures var e := SearchOutcomeEffect(outcome, online, currentSearchTerm);
        errorVisible == (old(errorVisible) || e.banner.Some?)
        && errorText == e.banner.GetOr(old(errorText))
        && grid == e.grid.GetOr(old(grid))
        && statsText == e.stats.GetOr(old(statsText))
    {
      HandleOutcome(outcome, online, currentSearchTerm);
      SetLoadingState(false);
    }

    /** `showModal()` */
    method ShowModal()
      modifies this`modalOpen, this`scrollLocked
      ensures modalOpen && scrollLocked
    {
      modalOpen := true;
      scrollLocked := true;
    }

    /** `closeModal()`: idempotent. */
    method CloseModal()
      modifies this`modalOpen, this`scrollLocked
      ensures !modalOpen && !scrollLocked
    {
      modalOpen := false;
      scrollLocked := false;
    }

    /** `handleEscapeKey(key)` */
    method HandleEscapeKey(key: string)
      requires Valid()
      modifies this`modalOpen, this`scrollLocked
      ensures Valid()
      ensures key == "Escape" ==> !modalOpen
      ensures key != "Escape" ==> unchanged(this)
    {
      if key == "Escape" && modalOpen {
        CloseModal();
      }
    }

    /** `handleModalBackgroundClick`: only a click on the backdrop itself,
        not on the dialog inside it, closes the modal. */
    method HandleModalBackgroundClick(onBackdrop: bool)
      requires Valid()
      modifies this`modalOpen, this`scrollLocked
      ensures Valid()
      ensures onBackdrop ==> !modalOpen
      ensures !onBackdrop ==> unchanged(this)
    {
      if onBackdrop {
        CloseModal();
      }
    }

    /** `displayMovieDetails(movie)`: the modal's content is replaced and the
        modal opens. */
    method DisplayMovieDetails(detail: Detail)
      requires Valid()
      modifies this`details, this`modalOpen, this`scrollLocked
      ensures Valid() && modalOpen && details == Some(DetailViewOf(detail))
    {
      details := Some(DetailViewOf(detail));
      ShowModal();
    }

    /** The continuation of `fetchMovieDetails` once its request has settled. */
    method FinishDetails(outcome: DetailOutcome)
      requires Valid()
      modifies this`details, this`modalOpen, this`scrollLocked, this`errorVisible, this`errorText
      ensures Valid()
      ensures var e := DetailOutcomeEffect(outcome);
        match e
        case OpenModal(view) =>
          modalOpen && details == Some(view) && errorVisible == old(errorVisible) && errorText == old(errorText)
        case DetailBanner(message) =>
          errorVisible && errorText == message && modalOpen == old(modalOpen) && details == old(details)
    {
      match outcome
      case DetailAnswered(response, detail) =>
        if response == Some("True") {
          DisplayMovieDetails(detail);
        } else {
          ShowError(DetailRetryMessage);
        }
      case _ =>
        ShowError(DetailConnectionMessage);
    }
  }

  /** The scenario of a search for "batman" whose single result has no
      poster, and of a second submission while it is in flight. */
  method BatmanScenario() {
    var page := new Page();
    page.HandleInputChange("batman");
    assert ValidateQuery("batman") == Accepted("batman");
    var started := page.HandleSearch();
    assert started && page.isLoading && page.currentSearchTerm == "batman";
    var again := page.HandleKeyPress("Enter");
    assert !again;
    again := page.HandleSearch();
    assert !again;
    BatmanAnswered(page);
  }

  /** The answer to the "batman" search arrives. */
  method BatmanAnswered(page: Page)
    requires page.Valid() && page.isLoading && page.currentSearchTerm == "batman"
    modifies page
  {
    var batman := Movie(Some("Batman"), Some("1989"), Some("tt0096895"), Some("movie"), Some("N/A"));
    page.FinishSearch(Answered(SearchData(Some("True"), Some([batman]), None)), true);
    SuccessShowsResults([batman], None, true, "batman");
    assert |page.grid| == 1 && page.grid[0] == CreateMovieCard(batman);
    assert page.grid[0].poster.PosterImage? && page.grid[0].poster.src == FallbackPoster;
    assert page.statsText == StatsText(1, "batman");
  }

  /** The scenario of a search the provider answers with "Movie not found!". */
  method NotFoundScenario(online: bool) {
    var page := new Page();
    page.HandleInputChange("zzzznomatch");
    assert ValidateQuery("zzzznomatch") == Accepted("zzzznomatch");
    var started := page.HandleSearch();
    assert started && page.currentSearchTerm == "zzzznomatch";
    NotFoundAnswered(page, online, "zzzznomatch");
  }

  /** The provider answers the search in flight with "Movie not found!". */
  method NotFoundAnswered(page: Page, online: bool, query: string)
    requires page.Valid() && page.isLoading && page.currentSearchTerm == query
    modifies page
  {
    page.FinishSearch(Answered(SearchData(Some("False"), None, Some(NotFoundError))), online);
    ApiErrorEffect(Some("False"), None, NotFoundError, online, query);
    assert page.grid == [] && page.statsText == [];
    assert page.errorVisible && Contains(page.errorText, Quoted(query));
  }
}
