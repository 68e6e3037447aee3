/** The decisions of the search flow, as pure functions: validation of the
    submitted text, classification of the provider's error text and of
    transport failures into user messages, and what a finished search or
    detail request leaves on the page. */
module Responses {
  import opened Strings
  import opened Html
  import opened Render

  // ---- Submission ----

  datatype Validation = MissingTitle | TooShort | Accepted(query: string)

  const MissingTitleMessage := "Please enter a movie title to search"
  const TooShortMessage := "Please enter at least 2 characters"

  /** `handleSearch`'s checks on the input: the text is trimmed; nothing left
      is a missing title, one character is too short, anything longer is
      searched for as trimmed. */
  function ValidateQuery(input: string): (v: Validation)
    ensures v == MissingTitle <==> AllWhiteSpace(input)
    ensures v == TooShort <==> |Trim(input)| == 1
    ensures v.Accepted? ==> v.query == Trim(input) && 2 <= |v.query|
  {
    TrimEmptyIff(input);
    var query := Trim(input);
    if query == [] then MissingTitle
    else if |query| < 2 then TooShort
    else Accepted(query)
  }

  /** An accepted query has no white space at either end and is accepted as
      it stands when submitted again. */
  lemma AcceptedQueryIsStable(input: string)
    requires ValidateQuery(input).Accepted?
    ensures var q := ValidateQuery(input).query;
      ValidateQuery(q) == Accepted(q) && !IsWhiteSpace(q[0]) && !IsWhiteSpace(q[|q| - 1])
  {
    var q := Trim(input);
    assert ValidateQuery(input) == Accepted(q);
    TrimIdempotent(input);
    TrimEnds(input);
    assert Trim(q) == q && |q| >= 2;
  }

  // ---- Errors reported by the provider ----

  const NotFoundError := "Movie not found!"
  const InvalidKeyMarker := "Invalid API key"
  const InvalidKeyMessage := "Invalid API key. Please check your OMDb API key configuration."
  const SearchErrorPrefix := "Search error: "

  datatype ApiErrorKind = NotFound | InvalidKey | OtherApiError

  /** The branches of `handleApiError`: the exact not-found text, then any
      text mentioning an invalid key, then everything else. */
  function ClassifyApiError(error: string): (k: ApiErrorKind)
    ensures k == NotFound <==> error == NotFoundError
    ensures k == InvalidKey <==> error != NotFoundError && Contains(error, InvalidKeyMarker)
  {
    if error == NotFoundError then NotFound
    else if Contains(error, InvalidKeyMarker) then InvalidKey
    else OtherApiError
  }

  const NotFoundLead := "No movies found for "
  const NotFoundTrail := ". Try a different search term."

  /** The quoted query. */
  function Quoted(query: string): string {
    "\"" + query + "\""
  }

  function NotFoundMessage(query: string): string {
    NotFoundLead + Quoted(query) + NotFoundTrail
  }

  /** The not-found banner names the query in double quotes. */
  lemma NotFoundMessageQuotes(query: string)
    ensures Contains(NotFoundMessage(query), Quoted(query))
  {
    ContainsSpliced(NotFoundLead, Quoted(query), NotFoundTrail);
  }

  /** The banner text for a provider error: the not-found message names the
      query in quotes, the invalid-key message is fixed, any other error is
      echoed verbatim after a prefix. */
  function ApiErrorMessage(error: string, query: string): (m: string)
    ensures ClassifyApiError(error) == NotFound ==> Contains(m, Quoted(query))
    ensures ClassifyApiError(error) == InvalidKey ==> m == InvalidKeyMessage
    ensures ClassifyApiError(error) == OtherApiError ==>
      SearchErrorPrefix <= m && m[|SearchErrorPrefix|..] == error
  {
    match ClassifyApiError(error)
    case NotFound =>
      NotFoundMessageQuotes(query);
      NotFoundMessage(query)
    case InvalidKey => InvalidKeyMessage
    case OtherApiError => SearchErrorPrefix + error
  }

  // ---- Transport failures and thrown errors ----

  const NetworkPrefix := "Unable to search movies. "
  const OfflineAdvice := "Please check your internet connection."
  const FetchAdvice := "Network error. Please try again."
  const RetryAdvice := "Please try again later."
  const FailedToFetch := "Failed to fetch"

  /** `handleSearchError`: being offline takes precedence over a message
      mentioning a failed fetch, which takes precedence over the generic
      advice; the banner always opens with the same sentence. */
  function NetworkErrorMessage(online: bool, message: string): (m: string)
    ensures NetworkPrefix <= m
    ensures !online ==> m[|NetworkPrefix|..] == OfflineAdvice
    ensures online && Contains(message, FailedToFetch) ==> m[|NetworkPrefix|..] == FetchAdvice
    ensures online && !Contains(message, FailedToFetch) ==> m[|NetworkPrefix|..] == RetryAdvice
  {
    NetworkPrefix
      + if !online then OfflineAdvice
        else if Contains(message, FailedToFetch) then FetchAdvice
        else RetryAdvice
  }

  /** The banner tells the three causes apart: equal banners come from the
      same connectivity and, when online, the same kind of failure. */
  lemma NetworkMessageIdentifiesCause(online1: bool, message1: string, online2: bool, message2: string)
    requires NetworkErrorMessage(online1, message1) == NetworkErrorMessage(online2, message2)
    ensures online1 == online2
    ensures online1 ==> (Contains(message1, FailedToFetch) <==> Contains(message2, FailedToFetch))
  {
    var m1, m2 := NetworkErrorMessage(online1, message1), NetworkErrorMessage(online2, message2);
    assert |m1[|NetworkPrefix|..]| == |m2[|NetworkPrefix|..]|;
  }

  /** The error `searchMovies` throws for a non-success HTTP status. */
  function HttpErrorMessage(status: nat): string {
    "HTTP error! status: " + Decimal(status)
  }

  /** The TypeError a JavaScript engine (V8 wording) throws when a property
      of `undefined` is read. */
  function UndefinedPropertyMessage(property: string): string {
    TypeErrorLead + property + TypeErrorTrail
  }

  const TypeErrorLead := "Cannot " + "read " + "properties " + "of " + "undefined " + "(reading '"
  const TypeErrorTrail := "')"

  /** A non-success HTTP status, when online, gives the generic advice. */
  lemma HttpErrorGivesRetryAdvice(status: nat)
    ensures NetworkErrorMessage(true, HttpErrorMessage(status)) == NetworkPrefix + RetryAdvice
  {
    var m := HttpErrorMessage(status);
    forall i | 0 <= i < |m| ensures m[i] != 'F' {
      if i >= |"HTTP error! status: "| {
        assert m[i] == Decimal(status)[i - |"HTTP error! status: "|];
      }
    }
    NotContainsWithoutFirst(m, FailedToFetch);
  }

  /** Reading a property of `undefined` is never reported as a failed fetch. */
  lemma UndefinedPropertyIsNotFetchFailure(property: string)
    requires 'F' !in property
    ensures !Contains(UndefinedPropertyMessage(property), FailedToFetch)
  {
    assert 'F' !in TypeErrorLead && 'F' !in TypeErrorTrail;
    NotContainsWithoutFirst(UndefinedPropertyMessage(property), FailedToFetch);
  }

  // ---- What a finished search does ----

  /** A search response: `Response`, `Search` and `Error`, each possibly absent. */
  datatype SearchData = SearchData(response: Option<string>, search: Option<seq<Movie>>, error: Option<string>)

  /** How the awaited part of `searchMovies` ends: `fetch` or `response.json()`
      rejected with an error message, the status was not a success, or a
      response body arrived. */
  datatype SearchOutcome = Rejected(message: string) | HttpFailure(status: nat) | Answered(data: SearchData)

  /** What a handler did to the page: the banner it showed, the grid and the
      result-count line it wrote (`None`: left alone), and the message of the
      error it threw, if any. */
  datatype Handled = Handled(banner: Option<string>, grid: Option<seq<Card>>, stats: Option<string>, raised: Option<string>)

  /** `handleApiError(data.Error, query)`. Reading `includes` of an absent
      error throws before anything is shown. */
  function ApiErrorHandled(error: Option<string>, query: string): Handled {
    match error
    case None => Handled(None, None, None, Some(UndefinedPropertyMessage("includes")))
    case Some(e) =>
      Handled(Some(ApiErrorMessage(e, query)),
              if ClassifyApiError(e) == NotFound then Some([]) else None,
              Some(StatsText(0, query)),
              None)
  }

  /** `handleSearchResponse(data, query)`. A success without a `Search`
      array clears the grid and then throws reading its length. */
  function ResponseHandled(data: SearchData, query: string): Handled {
    if data.response == Some("True") then
      match data.search
      case Some(movies) => Handled(None, Some(Cards(movies)), Some(StatsText(|movies|, query)), None)
      case None => Handled(None, Some([]), None, Some(UndefinedPropertyMessage("length")))
    else ApiErrorHandled(data.error, query)
  }

  /** What the page shows once a search has ended: the banner (`None`: not
      shown by this search), the grid and the result-count line (`None`:
      untouched). */
  datatype SearchEffect = SearchEffect(banner: Option<string>, grid: Option<seq<Card>>, stats: Option<string>)

  /** The `try`/`catch` of `searchMovies`: a thrown error goes to
      `handleSearchError`. */
  function SearchOutcomeEffect(outcome: SearchOutcome, online: bool, query: string): SearchEffect {
    match outcome
    case Rejected(message) => SearchEffect(Some(NetworkErrorMessage(online, message)), None, None)
    case HttpFailure(status) => SearchEffect(Some(NetworkErrorMessage(online, HttpErrorMessage(status))), None, None)
    case Answered(data) =>
      var h := ResponseHandled(data, query);
      if h.raised.Some? then SearchEffect(Some(NetworkErrorMessage(online, h.raised.value)), h.grid, h.stats)
      else SearchEffect(h.banner, h.grid, h.stats)
  }

  /** A successful response replaces the grid by exactly one card per result
      and writes a count line that reads back as that count and the query. */
  lemma SuccessShowsResults(movies: seq<Movie>, error: Option<string>, online: bool, query: string)
    ensures var e := SearchOutcomeEffect(Answered(SearchData(Some("True"), Some(movies), error)), online, query);
      e.banner.None? && e.grid.Some? && |e.grid.value| == |movies|
      && (forall i :: 0 <= i < |movies| ==> e.grid.value[i] == CreateMovieCard(movies[i]))
      && e.stats.Some? && (e.stats.value == [] <==> movies == [])
      && (movies != [] ==> ParseStats(e.stats.value) == Some((|movies|, query)))
  {
    if movies != [] {
      StatsRoundTrip(|movies|, query);
    }
  }

  /** A provider error clears the count line; only the not-found error clears
      the grid, and its banner names the query. */
  lemma ApiErrorEffect(response: Option<string>, search: Option<seq<Movie>>, error: string, online: bool, query: string)
    requires response != Some("True")
    ensures var e := SearchOutcomeEffect(Answered(SearchData(response, search, Some(error))), online, query);
      e.stats == Some([])
      && (e.grid == Some([]) <==> error == NotFoundError)
      && (e.grid.Some? ==> e.grid == Some([]))
      && e.banner == Some(ApiErrorMessage(error, query))
      && (error == NotFoundError ==> Contains(e.banner.value, Quoted(query)))
  {
  }

  /** Every way a search can end other than a success with a result array
      shows a banner: no failure is silent. */
  lemma FailuresAreShown(outcome: SearchOutcome, online: bool, query: string)
    ensures SearchOutcomeEffect(outcome, online, query).banner.None? <==>
      outcome.Answered? && outcome.data.response == Some("True") && outcome.data.search.Some?
  {
  }

  /** A search that ends in a thrown error (rejected request, bad status, or
      a response missing the field the handler reads) shows the network
      banner; the count line stays, and the grid stays unless the handler
      had already cleared it. */
  lemma ThrownErrorEffect(outcome: SearchOutcome, online: bool, query: string)
    requires outcome.Rejected? || outcome.HttpFailure?
      || (outcome.Answered? && outcome.data.response == Some("True") && outcome.data.search.None?)
      || (outcome.Answered? && outcome.data.response != Some("True") && outcome.data.error.None?)
    ensures var e := SearchOutcomeEffect(outcome, online, query);
      e.banner.Some? && NetworkPrefix <= e.banner.value && e.stats.None?
      && (e.grid.Some? ==> e.grid == Some([]))
      && (online && !outcome.Rejected? ==> e.banner.value == NetworkPrefix + RetryAdvice)
  {
    if outcome.HttpFailure? {
      HttpErrorGivesRetryAdvice(outcome.status);
    } else if outcome.Answered? {
      UndefinedPropertyIsNotFetchFailure(if outcome.data.response == Some("True") then "length" else "includes");
    }
  }

  // ---- What a finished detail request does ----

  const DetailRetryMessage := "Unable to load movie details. Please try again."
  const DetailConnectionMessage := "Unable to load movie details. Please check your connection."

  /** How the awaited part of `fetchMovieDetails` ends. */
  datatype DetailOutcome =
    | DetailRejected(message: string)
    | DetailHttpFailure(status: nat)
    | DetailAnswered(response: Option<string>, detail: Detail)

  datatype DetailEffect = OpenModal(view: DetailView) | DetailBanner(message: string)

  /** A record opens the modal; a provider refusal and a thrown error show
      different banners. */
  function DetailOutcomeEffect(outcome: DetailOutcome): (e: DetailEffect)
    ensures e.OpenModal? <==> outcome.DetailAnswered? && outcome.response == Some("True")
    ensures e.DetailBanner? && outcome.DetailAnswered? ==> e.message == DetailRetryMessage
    ensures e.DetailBanner? && !outcome.DetailAnswered? ==> e.message == DetailConnectionMessage
    ensures e.OpenModal? ==> e.view == DetailViewOf(outcome.detail)
    ensures e.OpenModal? ==> IsInert(e.view.titleHtml) && IsInert(e.view.plotHtml)
  {
    match outcome
    case DetailAnswered(response, detail) =>
      if response == Some("True") then OpenModal(DetailViewOf(detail)) else DetailBanner(DetailRetryMessage)
    case _ => DetailBanner(DetailConnectionMessage)
  }
}
