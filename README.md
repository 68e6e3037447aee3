# Movie search client: a verified model

`app.js` is a browser client for the OMDb movie database. The user types a title. The script checks the text and queries the provider. It renders one card per result, with a result-count line. Selecting a card fetches the full record and shows it in a modal.

This project models the part of that script whose behaviour can be stated: the HTML escaper, the rules for accepting a query, the way the provider's answers and transport failures become banners, the small renderers, and the page state the handlers overwrite. It proves properties about each part.

Files:

- `strings.dfy` (module `Strings`): the JavaScript string operations the script relies on.
  - `trim`, with the ECMAScript white-space set.
  - `includes`.
  - `${v}` interpolation of a possibly `undefined` value.
  - The decimal text of a count.
- `html.dfy` (module `Html`): `escapeHtml` as five chained global replacements.
  - It is proved equal to a per-character map.
  - From that follow the safety of the output and the round trip through a decoder.
- `render.dfy` (module `Render`): what ends up in each slot of the templates.
  - The poster choice, the result cards, the spec rows of the detail view and the result-count line.
  - The count line has a parser as its partner.
- `responses.dfy` (module `Responses`): the decisions of the search flow as pure functions.
  - Query validation.
  - Classification of provider errors and of thrown errors.
  - What a finished search or detail request leaves on the page.
- `ui.dfy` (module `Ui`): the class `Page`.
  - It holds `isLoading`, `currentSearchTerm` and the parts of the page the handlers change: the input's value, the button's `disabled`, the spinner, the banner, the count line, the grid and the modal.
  - Every handler is a method, proved against the functions of `Responses`.
  - `Valid()` keeps three facts together:
    - the button is disabled exactly while loading or while the trimmed input is empty;
    - the spinner shows exactly while loading;
    - the page scroll is locked exactly while the modal is open.

Modelling conventions:

- A value the provider may omit is an `Option`. `None` is `undefined`, and `Show(None)` is the text `"undefined"` that a template literal writes.
- `navigator.onLine` is a parameter.
- The outcome of an awaited `fetch` is an input value (`SearchOutcome`, `DetailOutcome`):
  - the request rejected with a message;
  - a non-success status;
  - a parsed body.
- The asynchronous `searchMovies` is split at its `await`:
  - `Page.SearchMovies` runs on submission.
  - `Page.FinishSearch` runs when the request settles. It passes `currentSearchTerm` as the query. That equals the argument of the pending call, because no other search can start while `isLoading` holds.
- A `TypeError` thrown by reading a property of `undefined` is modelled as the message it carries. Such an error is caught by the same `catch` and reaches `handleSearchError`. This happens in two cases:
  - a success response without `Search` (`data.Search.length`);
  - an error response without `Error` (`errorMsg.includes`).

## Model

| member | source | states |
|---|---|---|
| Strings.Trim | app.js:54 | `trim`, used at app.js:54, 85, 121 and 429; its properties are stated by the lemmas below (TrimStartSpec, TrimEndSpec, TrimEnds, TrimIsSlice, TrimIdempotent, TrimEmptyIff) |
| Strings.Show | app.js:248-255 | `${v}` in a template literal: the value's text, or "undefined" when the provider omitted it; used in the card and detail templates |
| Strings.Contains | app.js:183 | `includes`, used at app.js:183 and 201; characterised by ContainsIffOccurs and NotContainsWithoutFirst |
| Strings.Decimal | app.js:407 | `${count}`: a non-empty run of decimal digits that starts with '0' only for the count 0 (no leading zero); DecimalRoundTrip reads it back as the count |
| Strings.TrimStartSpec | app.js:54 | what `trim` drops at the front is white space, and what it keeps is a suffix that does not start with white space |
| Strings.TrimEndSpec | app.js:54 | what `trim` drops at the back is white space, and what it keeps is a prefix that does not end with white space |
| Strings.TrimEnds | app.js:54 | a trimmed text neither starts nor ends with white space |
| Strings.TrimIsSlice | app.js:54 | the trimmed text is a slice of the input with only white space cut off on either side |
| Strings.TrimIdempotent | app.js:429 | trimming an already trimmed value (as `setLoadingState` does with `searchInput.value.trim()`) changes nothing |
| Strings.TrimEmptyIff | app.js:56 | `!query` after trimming holds exactly when the input is all white space |
| Strings.ContainsIffOccurs | app.js:183 | `includes` is true exactly when the text occurs at some position |
| Strings.NotContainsWithoutFirst | app.js:201 | a text lacking the first character of the pattern does not include the pattern |
| Strings.DecimalRoundTrip | app.js:407 | the decimal text of a count reads back as that count |
| Html.ReplaceAll | app.js:463-467 | `replace(/p/g, r)` for a literal pattern: a left-to-right scan over non-overlapping occurrences; ReplaceSkips and ReplaceStaged state how it passes over or rewrites each block |
| Html.EscapeText | app.js:462-467 | the five chained replacements, ampersand first; EscapeTextIsCharMap, EscapeTextInert, UnescapeEscape and EscapeTextIdentity state what they compute |
| Html.EscapeHtml | app.js:459-468 | absent or empty input gives `''`, and only such input does; the output is inert as markup; a present input decodes back from the output |
| Html.EscapeTextIsCharMap | app.js:462-467 | the five chained replacements, ampersand first, equal escaping each character on its own |
| Html.ReplaceStaged | app.js:463-467 | one global replacement advances the text from one stage of the escape to the next, when no entity already written can contain or start a match |
| Html.EscapeStage | app.js:463-467 | replacing a reserved character after the ampersand has been replaced escapes exactly that character in addition |
| Html.DecodeStage | app.js:459-468 | decoding one entity while `&amp;` is still encoded restores exactly that character |
| Html.EscapeTextInert | app.js:462-467 | the escaped text holds no raw `<`, `>`, `"` or `'`, and each `&` in it starts one of the five entities |
| Html.EscapeCharInert | app.js:463-467 | the replacement of a single character is inert |
| Html.EscapeEachInert | app.js:462-467 | the per-character escape of any text is inert |
| Html.UnescapeEscape | app.js:462-467 | decoding the five entities, `&amp;` last, gives back the original text |
| Html.EscapeTextIdentity | app.js:462-467 | a text without reserved characters is returned unchanged |
| Render.ChoosePoster | app.js:236-245 | the `'N/A'` sentinel becomes the fallback image; an absent or empty poster, and only that, becomes the placeholder block, which has no alt text; any other value is the image source; an image's alt text is the raw title followed by " poster" |
| Render.CreateMovieCard | app.js:235-259 | the heading is the escaped title (inert, decodes back to the title); imdbID, year, type and the title in the aria-label are written as sent; the poster, with its alt text, follows the poster choice |
| Render.Cards | app.js:215-222 | the grid content has one card per result, in result order |
| Render.CardAltTextIsRaw | app.js:240 | when a card shows an image, the unescaped title reaches its alt attribute, so a double quote in the title reaches the attribute |
| Render.CreateSpecRow | app.js:367-376 | there is no row (`''`) exactly when the value is absent, empty or `'N/A'`; otherwise the label slot (before the colon) holds the name and the value slot holds only the escaped value, which is non-empty, inert and decodes back to the value |
| Render.DetailViewOf | app.js:321-355 | title and plot are the record's Title and Plot passed through the escaper (inert, and decoding back to the record's text); the meta line (year, rating, runtime, score) is written raw; there is one row per label, in the source's order; each row is empty exactly when its value is omitted, and otherwise has that label in its label slot and only the escaped value in its value slot; the poster, with its raw alt text, follows the same choice as on cards |
| Render.NoBoxOfficeRow | app.js:351 | a record without a box-office figure, or with `'N/A'`, shows no Box Office row |
| Render.StatsText | app.js:405-411 | the count line is empty exactly when the count is 0; otherwise it opens with "Found " and ends with the closing quote |
| Render.StatsRoundTrip | app.js:407 | a non-empty count line determines the count and the query, with "result" pluralised exactly when the count is not 1 |
| Responses.ValidateQuery | app.js:53-68 | the input is rejected as missing exactly when it is all white space, and as too short exactly when one character remains after trimming; otherwise the trimmed text, at least two characters long, is searched |
| Responses.AcceptedQueryIsStable | app.js:54-67 | an accepted query has no white space at either end and is accepted unchanged if submitted again |
| Responses.ClassifyApiError | app.js:180-187 | the not-found branch is taken exactly for the text "Movie not found!"; the invalid-key branch exactly for other texts that include "Invalid API key" |
| Responses.NotFoundMessage | app.js:181 | the not-found banner; NotFoundMessageQuotes states that it names the query in double quotes |
| Responses.NotFoundMessageQuotes | app.js:181 | the not-found banner names the query in double quotes |
| Responses.ApiErrorMessage | app.js:180-187 | not found names the quoted query; an invalid key gives the fixed configuration message; anything else is "Search error: " followed by the provider's text |
| Responses.NetworkErrorMessage | app.js:196-207 | the banner opens with "Unable to search movies. "; offline advice takes precedence over the failed-fetch advice, which takes precedence over the generic retry advice |
| Responses.NetworkMessageIdentifiesCause | app.js:196-207 | equal network banners come from the same connectivity and, when online, from the same kind of failure |
| Responses.HttpErrorMessage | app.js:142 | the message of the error thrown for a non-success status; HttpErrorGivesRetryAdvice states how it is classified |
| Responses.HttpErrorGivesRetryAdvice | app.js:141-142 | when online, a non-success HTTP status gives the generic retry advice |
| Responses.UndefinedPropertyIsNotFetchFailure | app.js:166 | a TypeError from reading a property of `undefined` is never reported as a failed fetch |
| Responses.ApiErrorHandled | app.js:177-190 | what `handleApiError` does, as a value: banner, grid, count line, or the TypeError of an absent error text; ApiErrorEffect states its consequences |
| Responses.ResponseHandled | app.js:163-170 | what `handleSearchResponse` does, as a value; SuccessShowsResults, ApiErrorEffect and ThrownErrorEffect state its consequences |
| Responses.SearchOutcomeEffect | app.js:139-152 | what the `try`/`catch` of `searchMovies` leaves on the page for each outcome; SuccessShowsResults, ApiErrorEffect, FailuresAreShown and ThrownErrorEffect state its properties |
| Responses.SuccessShowsResults | app.js:164-166 | a success with a result array shows no banner, replaces the grid by one card per result, and writes a count line that reads back as the count and the query |
| Responses.ApiErrorEffect | app.js:177-190 | a provider error empties the count line; it clears the grid exactly when the error is "Movie not found!" and otherwise leaves it; the banner is the classified message |
| Responses.FailuresAreShown | app.js:148-152 | every search outcome except a success with a result array shows a banner |
| Responses.ThrownErrorEffect | app.js:139-152 | a rejected request, a bad status or a response missing the field the handler reads shows the network banner and leaves the count line; when online and not rejected, the advice is the generic retry text |
| Responses.DetailOutcomeEffect | app.js:291-315 | a record with `Response` "True" opens the modal and nothing else does; a provider refusal shows the retry banner, and a thrown error shows the connection banner; the opened view is the one built from the record, so its title and plot are inert |
| Ui.Page.constructor | app.js:22-23 | the page starts with nothing loading, no term, empty input, a disabled button and nothing shown |
| Ui.Page.UpdateSearchButtonState | app.js:120-122 | the button is disabled exactly while loading or when the trimmed query is empty |
| Ui.Page.SetLoadingState | app.js:417-431 | loading and the spinner follow the argument; entering loading disables the button; leaving it re-evaluates the button from the current input |
| Ui.Page.ShowError | app.js:437-445 | the banner shows exactly the given text |
| Ui.Page.HideError | app.js:450-452 | the banner is hidden and nothing else changes |
| Ui.Page.HandleInputChange | app.js:84-94 | typing keeps the page invariant; a banner is hidden exactly when the new input is not all white space |
| Ui.Page.SearchMovies | app.js:128-134 | while loading nothing changes at all; otherwise loading starts with the button disabled, the banner hidden and the term recorded |
| Ui.Page.HandleSearch | app.js:53-68 | a search starts exactly when not loading and the input passes validation, with the trimmed input as the term; a missing or too-short input shows its message and starts nothing |
| Ui.Page.HandleKeyPress | app.js:74-78 | only Enter, and never while loading, can start a search; any other key, or Enter while loading, changes nothing; Enter on a missing or too-short input shows that input's message and starts nothing, leaving the loading state and the term as they were |
| Ui.Page.DisplayMovies | app.js:215-222 | the grid is replaced, not appended to, by one card per result; an absent or empty list clears it |
| Ui.Page.UpdateSearchStats | app.js:405-411 | the count line becomes the text for this count and query |
| Ui.Page.HandleSearchError | app.js:196-209 | the banner shows the network message for the connectivity and the error's message |
| Ui.Page.HandleApiError | app.js:177-190 | banner, grid, count line and thrown error are those of the pure classification |
| Ui.Page.HandleSearchResponse | app.js:163-170 | banner, grid, count line and thrown error are those of the pure response handling |
| Ui.Page.HandleOutcome | app.js:139-152 | a settled request leaves the banner, grid and count line that the outcome's specification prescribes, with thrown errors routed to the network banner |
| Ui.Page.FinishSearch | app.js:139-155 | after any outcome loading has ended, the spinner is hidden, the button follows the input, and the page shows the outcome's effect |
| Ui.Page.ShowModal | app.js:381-387 | the modal is open and page scroll is locked |
| Ui.Page.CloseModal | app.js:392-398 | the modal is closed and page scroll is restored |
| Ui.Page.HandleEscapeKey | app.js:100-104 | Escape closes the modal; any other key changes nothing |
| Ui.Page.HandleModalBackgroundClick | app.js:110-114 | only a click on the backdrop itself closes the modal |
| Ui.Page.DisplayMovieDetails | app.js:321-359 | the modal shows the view built from the record and is open |
| Ui.Page.FinishDetails | app.js:305-314 | the page shows exactly the effect of the detail outcome: the opened view, or the banner with the outcome's message, with everything else left as it was |

## Left out

- Building request URLs, `encodeURIComponent`, `fetch` and `response.json()` (app.js:136-145, 295-302) are network and library calls. Their results enter the model as `SearchOutcome` and `DetailOutcome` values.
- The provider key check at start-up (app.js:31-34) compares a constant with a placeholder and is not modelled.
- Event-listener wiring, DOM lookups and `addMovieCardListeners` (app.js:11-19, 29-47, 264-285) are browser plumbing. The handlers are modelled as methods called with the event's relevant part (the key, the typed value, whether the click hit the backdrop).
- Console logging and the `visibilitychange` handler (app.js:474-480) change no state.
- The 5-second auto-hide of the banner (app.js:442-444) is a timer and is not modelled. `HideError` is the operation it would call.
- Focus moves (app.js:58, 386, 397) are not modelled.
- The image `onerror` fallback (app.js:243, 326) runs in the browser after rendering and is not modelled.
- The exact markup of cards and of the detail view is not modelled; neither is the unclosed `class` attribute at app.js:325. Cards and views record the text in each slot, which is enough to say what is escaped and what is written raw.
- The display of the spinner and of the button's text and loading parts (app.js:421-423, 426-428) is folded into `spinnerVisible`.
- Ui.Page.constructor: the initial page is assumed to have an empty input and a disabled button. The page markup that would set this is not part of this model.
- The text of a TypeError thrown by reading a property of `undefined` is engine-specific. `Responses.UndefinedPropertyMessage` uses the V8 wording. The proofs rely only on that text not including "Failed to fetch".
- Responses.ValidateQuery: a Dafny `char` is a Unicode scalar value, while JavaScript's `length` counts UTF-16 code units. For input made of characters in the Basic Multilingual Plane the two agree. Input with a character outside it (an emoji, say) is outside the model: a query of one such character is TooShort here, but has length 2 in JavaScript and is searched.
- The HTML of the detail view is abstracted to the `DetailView` slots (`Render.DetailViewOf`). The meta line (year, rating, runtime, score) and the poster's alt text are kept raw, as the source writes them.
- Concurrency between the two asynchronous flows is not modelled. A detail request and a search may both be in flight, and their continuations are methods that can be called in any order.
