# Movie finder: pagination, search bar, autocomplete and year filter

This project models the logic inside the user-interface components of a movie
search web application. The application asks a remote movie database for
titles and shows the results in pages. The model covers four components:

- **Pagination** (`Pagination` module). It computes the page count from the
  result count and the page size (ten results per page by default). It builds
  the bar of page links: page 1, the pages within two of the current page, and
  the last page. A `'...'` marker stands wherever page numbers are skipped.
  Its click guard changes the page only for an in-range page that is not the
  current page. `GetPageRange` keeps the source's two loops, and its
  postcondition ties its result to the function `PageRange`. Lemmas prove the
  shape of that bar.
- **Autocomplete hook** (`Autocomplete` module). It holds the suggestion list
  (at most five movies), whether the list is shown, whether a fetch is in
  progress, and the abort-controller bookkeeping. The class `Suggester` holds
  this state. How the remote search ends is a parameter of each fetch: a result
  with its success flag and its movies, an `AbortError`, or any other thrown
  error. The pure functions `Settle`, `AfterFetch`, `Step` and `Run` state what
  each call does to the dropdown.
- **Search bar** (`SearchBar` module). It validates the search term with
  JavaScript's `trim`: an empty term and a term shorter than three characters
  are refused with their own messages. It also models the selected-index state
  machine over the suggestion list for ArrowDown, ArrowUp, Enter and Escape.
  It resets on typing and on clearing. The class `SearchBox` owns a
  `Suggester`. Each handler returns the term it hands to `onSearch` as `sent`.
- **Year filter form** (`FilterControls` module). When both years are filled,
  it runs three checks in order: minimum after maximum, minimum before 1888,
  and maximum after the current year. The first failing check sets the error.
  Otherwise the filled years are handed on, and an empty input becomes `null`.
  Clearing hands on an unbounded range. The "Active" badge shows when a stored
  bound is truthy. The current year is a parameter.

A year input is modelled as `Option<int>`. `None` is the empty string, and
`Some(n)` is text that `parseInt` reads as `n`. A stored bound of `None` is
JavaScript's `null`. JavaScript truthiness is modelled explicitly: an input is
truthy when it holds any text, but a stored bound of `0` is falsy.

One behaviour of the source is modelled as written. Suppose Enter is pressed
while the selected index points past the end of the suggestion list. This can
happen when a fetch shortens the list after the selection moved.
`suggestions[selectedIndex]` is then `undefined`, and reading its `Title`
throws a TypeError. `HandleKeyDown` and `EnterOnList` report this through
`threw` and leave the state unchanged.

## Model

| member | source | states |
|---|---|---|
| Pagination.TotalPages | src/components/Pagination.jsx:9 | the page count `r` is the ceiling of results over page size: `totalResults <= r * size < totalResults + size` |
| Pagination.Render | src/components/Pagination.jsx:8-12 | nothing is rendered exactly when the page count is at most 1; otherwise the bar is `PageRange` of the current page and the page count |
| Pagination.GetPageRange | src/components/Pagination.jsx:15-46 | the two loops (collect pages, then insert `'...'` markers) return exactly `PageRange(currentPage, totalPages)` |
| Pagination.MiddleExactly | src/components/Pagination.jsx:16-28 | the first loop adds exactly the i with `currentPage-2 <= i <= currentPage+2` and `1 < i < totalPages`, in strictly increasing order |
| Pagination.WindowShape | src/components/Pagination.jsx:20-33 | the page list has at least 2 pages, starts with 1, ends with `totalPages`, strictly increases, stays within `[1, totalPages]`; it holds exactly 1, `totalPages` and the window pages strictly between them |
| Pagination.PagesOfWithDots | src/components/Pagination.jsx:35-43 | removing the `'...'` markers gives back the page list unchanged |
| Pagination.DotsOfWithDots | src/components/Pagination.jsx:35-43 | every `'...'` is followed by a page more than one past the page before it (or past `prev`); two adjacent page links are at most one apart; a first page at most one past `prev` gets no marker |
| Pagination.PageRangeShape | src/components/Pagination.jsx:15-46 | the rendered bar starts with page 1 (so never with `'...'`), ends with the last page, its numbers strictly increase (no duplicates), lie in `[1, totalPages]`, equal the window, and markers sit exactly at the gaps |
| Pagination.WorkedExample | src/components/Pagination.jsx:9-46 | 95 results at 10 per page give 10 pages, and page 5 shows `[1, '...', 3, 4, 5, 6, 7, '...', 10]` |
| Pagination.WorkedExampleBar | src/components/Pagination.jsx:15-46 | on page 5 of 10 the bar is `[1, '...', 3, 4, 5, 6, 7, '...', 10]` |
| Pagination.ClickTarget | src/components/Pagination.jsx:50-56 | `onPageChange(page)` fires exactly when `page != currentPage` and `1 <= page <= totalPages`, and with that page |
| Pagination.ClickOnBarEntry | src/components/Pagination.jsx:85-100 | clicking any page link of the bar changes to that page unless it is the current page |
| Pagination.NeighbourClicks | src/components/Pagination.jsx:69-143 | for an in-range current page, the previous, next, first and last buttons fire exactly when they are not disabled |
| Autocomplete.Settle | src/hooks/useAutocomplete.js:31-45 | a successful answer with movies shows its first min(n, 5) movies in order; an empty or unsuccessful answer, or a non-abort error, empties and hides the list; an `AbortError` changes nothing; a well-formed dropdown stays well formed |
| Autocomplete.AfterFetch | src/hooks/useAutocomplete.js:14-49 | an empty query or one shorter than `minChars` empties and hides the list and asks nothing; otherwise the result is `Settle` of the answer; well-formedness is kept |
| Autocomplete.Step | src/hooks/useAutocomplete.js:51-62 | clear leaves an empty hidden list; hide keeps the list and only hides it |
| Autocomplete.Requests | src/hooks/useAutocomplete.js:20 | the remote search is asked only for a non-empty query of at least `minChars` characters; with `minChars >= 1` the length test alone decides |
| Autocomplete.RunKeepsWellFormed | src/hooks/useAutocomplete.js:20-62 | after any series of fetches, clears and hides, whatever the answers, the list holds at most 5 movies and is shown only when non-empty |
| Autocomplete.Suggester.constructor | src/hooks/useAutocomplete.js:8-12 | the hook starts with an empty hidden list, not loading, and no abort controller |
| Autocomplete.Suggester.AbortCurrent | src/hooks/useAutocomplete.js:16-18 | the current controller, if any, is added to the aborted ones; nothing else changes |
| Autocomplete.Suggester.FetchSuggestions | src/hooks/useAutocomplete.js:14-49 | the previous controller, and only it, is added to the aborted ones; the remote search is asked exactly for a non-empty query of at least `minChars`, with a new controller; the new dropdown is `Step` of the fetch; `loading` is false at the end |
| Autocomplete.Suggester.ClearSuggestions | src/hooks/useAutocomplete.js:51-58 | the list is emptied and hidden, `loading` is false, and the current controller is aborted |
| Autocomplete.Suggester.HideSuggestions | src/hooks/useAutocomplete.js:60-62 | only `showSuggestions` changes, to false; the list is unchanged |
| SearchBar.LeadingBlanks | src/components/SearchBar.jsx:50 | the count of white-space characters `trim` drops at the front: every one of them is white space and the character after them is not |
| SearchBar.TrailingBlanksStart | src/components/SearchBar.jsx:55 | where the white space `trim` drops at the back begins: everything from there on is white space and the character before it is not |
| SearchBar.Trim | src/components/SearchBar.jsx:50-62 | the trimmed term is no longer than the input and, when non-empty, neither starts nor ends with white space |
| SearchBar.TrimIsInner | src/components/SearchBar.jsx:50-62 | the trimmed term is a contiguous part of the input with only white space around it, and it is empty exactly when the input is all white space |
| SearchBar.TrimIdempotent | src/components/SearchBar.jsx:62 | trimming a trimmed term changes nothing |
| SearchBar.Validate | src/components/SearchBar.jsx:50-58 | "Please enter a search term" exactly when the term is all white space; "Please enter at least 3 characters" exactly when 1 or 2 characters are left after trimming; otherwise the trimmed term is accepted |
| SearchBar.SearchTerm | src/components/SearchBar.jsx:47 | a non-empty explicit term is used; an absent or empty one falls back to the typed query |
| SearchBar.Submission | src/components/SearchBar.jsx:46-62 | `onSearch` is called exactly when `searchQuery \|\| query` validates, and with its trimmed text |
| SearchBar.ErrorAfter | src/components/SearchBar.jsx:48-58 | the validation message is empty exactly when the search goes ahead |
| SearchBar.SubmittedTermIsStable | src/components/SearchBar.jsx:55-62 | a term handed to `onSearch` has at least 3 characters, no surrounding white space, and submitting it again hands on the same term |
| SearchBar.MoveDown | src/components/SearchBar.jsx:83-85 | ArrowDown moves one entry on, except that it stays put exactly at (or past) the last entry; an in-range index stays in range |
| SearchBar.MoveUp | src/components/SearchBar.jsx:90 | ArrowUp moves one entry back, and lands on -1 (nothing selected) exactly from the first entry or below; from -1 or above it never goes below -1 |
| SearchBar.ArrowsStayInRange | src/components/SearchBar.jsx:81-90 | over a fixed list of `count` suggestions, ArrowDown and ArrowUp keep the index in `[-1, count-1]` |
| SearchBar.DownTimesClamps | src/components/SearchBar.jsx:81-85 | n presses of ArrowDown from an in-range index give `min(prev + n, count - 1)` |
| SearchBar.UpTimesClamps | src/components/SearchBar.jsx:88-90 | n presses of ArrowUp from `prev >= -1` give `max(prev - n, -1)` |
| SearchBar.SearchBox.constructor | src/components/SearchBar.jsx:7-14 | empty query and message, index -1, and an autocomplete hook with `minChars` 2 holding nothing |
| SearchBar.SearchBox.PerformSearch | src/components/SearchBar.jsx:46-63 | hands on `Submission`, sets the message to `ErrorAfter`; on success clears the suggestions and resets the index to -1; on refusal changes nothing else |
| SearchBar.SearchBox.HandleSubmit | src/components/SearchBar.jsx:41-44 | submitting the form searches the typed query, with the same outcome as `performSearch()` |
| SearchBar.SearchBox.OnChange | src/components/SearchBar.jsx:143-147 | typing sets the query, empties the message and resets the index to -1 |
| SearchBar.SearchBox.HandleClear | src/components/SearchBar.jsx:65-70 | clearing empties the query, the message and the suggestions, and resets the index to -1 |
| SearchBar.SearchBox.QuerySettled | src/components/SearchBar.jsx:18-22 | a settled non-empty query fetches suggestions; an empty one leaves the hook untouched; after a fetch `loading` is false, the previous controller is aborted, and a new controller exists exactly when the remote search was asked |
| SearchBar.SearchBox.OnFocus | src/components/SearchBar.jsx:149-153 | focus refetches exactly when the query has at least 2 characters and the list is non-empty; after a fetch `loading` is false, the previous controller is aborted, and a new controller exists exactly when the remote search was asked |
| SearchBar.SearchBox.SuggestionClick | src/components/SearchBar.jsx:72-75 | the clicked title becomes the query and is submitted, an empty title falling back to the previously typed query; when it is accepted the dropdown is emptied and the index reset to -1, when refused both stay as they were |
| SearchBar.SearchBox.Hover | src/components/SearchBar.jsx:236 | hovering selects the entry under the pointer, which is in range |
| SearchBar.SearchBox.HandleKeyDown | src/components/SearchBar.jsx:77-115 | while the list is shown and non-empty: the arrows move the index by `MoveDown`/`MoveUp` over the unchanged list, keeping it in range; Enter submits the selected title or the typed query; Escape hides the list, keeps its entries, the loading flag and the controllers, and resets the index. Otherwise only Enter acts, and it submits the typed query. Enter throws exactly when the index points past the list |
| SearchBar.SearchBox.EnterOnList | src/components/SearchBar.jsx:93-102 | with an index in range the selected title becomes the query and is submitted; with -1 the typed query is submitted; past the list it throws and changes nothing |
| SearchBar.SearchBox.PressEnter | src/components/SearchBar.jsx:41-118 | Enter in the input with no dropdown shown is not prevented, so the form is submitted too: an accepted query is handed to `onSearch` twice; with the dropdown shown at most one search happens |
| FilterControls.Decimal | src/components/FilterControls.jsx:39 | the current year in the message is written as decimal digits whose value is the year, with no leading zero |
| FilterControls.Message | src/components/FilterControls.jsx:27-40 | each refusal has its own text (told apart by its second letter); the max-year text is "Max year cannot be greater than " followed by `Decimal` of the current year, whose digits spell that year |
| FilterControls.MessageIdentifiesError | src/components/FilterControls.jsx:27-40 | two refusals with the same message are the same refusal, including the same current year |
| FilterControls.CheckRange | src/components/FilterControls.jsx:20-48 | with both years set: min > max gives the min/max error; otherwise min < 1888 gives the 1888 error; otherwise max > current year gives the max-year error; the first failing check wins. With a year missing, or all checks passed, the range is the inputs, with an empty input becoming null |
| FilterControls.Truthy | src/components/FilterControls.jsx:9-10 | a stored bound is falsy exactly when it is null or 0 |
| FilterControls.InputOf | src/components/FilterControls.jsx:9-18 | an input shows a stored bound exactly when that bound is truthy (not null, not 0) |
| FilterControls.HasActiveFilters | src/components/FilterControls.jsx:57 | the filter is active exactly when a stored bound is truthy |
| FilterControls.AcceptedRangeIsValid | src/components/FilterControls.jsx:24-47 | a range accepted with both years set satisfies `1888 <= min <= max <= currentYear` |
| FilterControls.AppliedRangeShowsBack | src/components/FilterControls.jsx:15-18 | when the stored range comes back, the inputs show the applied years again, unless a year was 0; the badge is active exactly when a year was filled |
| FilterControls.PresetsPass | src/components/FilterControls.jsx:143-187 | from 2020 on, applying any quick preset passes every check unchanged |
| FilterControls.FilterForm.constructor | src/components/FilterControls.jsx:9-11 | the inputs start from the truthy stored bounds, with no error |
| FilterControls.FilterForm.SyncFromRange | src/components/FilterControls.jsx:15-18 | a new stored range resets both inputs to its truthy bounds |
| FilterControls.FilterForm.SetMinYear | src/components/FilterControls.jsx:123 | typing sets the minimum input |
| FilterControls.FilterForm.SetMaxYear | src/components/FilterControls.jsx:134 | typing sets the maximum input |
| FilterControls.FilterForm.ApplyPreset | src/components/FilterControls.jsx:143-184 | a preset fills both inputs with its years |
| FilterControls.FilterForm.ApplyFilter | src/components/FilterControls.jsx:20-48 | the error is cleared first; on a failed check the message is set and nothing is emitted; on success the range is emitted and the error stays empty; the inputs are unchanged |
| FilterControls.FilterForm.ClearFilter | src/components/FilterControls.jsx:50-55 | both inputs and the error are emptied, and `{min: null, max: null}` is emitted, which is not active |

## Left out

- Timing is not modelled. This covers the 300 ms debounce of the query, the debounce hook itself, and async ordering. `QuerySettled` stands for "the typed text has been stable long enough".
- Races between overlapping autocomplete requests are not modelled. The abort controller's signal is never passed to the remote search, so aborting has no effect on results. The model records which controllers were aborted, and each fetch's answer is an input applied when that call completes.
- The remote search (`searchMovies`) is not modelled. Its answer is the `SearchOutcome` parameter.
- The page-level search flow and the favourites page are not part of this model.
- The query highlighting is not modelled, because it depends on JavaScript regular-expression semantics.
- DOM and browser behaviour is not modelled: the click-outside listener, `window.scrollTo` after a page change, the navigation bar, the markup, the styling and the skeleton loaders.
- `parseInt` on arbitrary text is not modelled. A year input is already an optional integer, so `NaN` inputs are not represented.
- Pagination.TotalPages: a page size of 0 is excluded by its precondition. In JavaScript that division gives `Infinity` or `NaN`; the page size is the search API's fixed 10, the component's default (src/components/Pagination.jsx:5, 8).
- White space: the model lists the white space and line terminators that JavaScript's `trim` removes. String length counts characters, not UTF-16 code units.
- Implicit form submission: the browser's submit-on-Enter is modelled only for Enter in the search input (`PressEnter`, which then runs `handleSubmit`); clicks on the submit button are `HandleSubmit` alone. The resulting double call of `onSearch` is modelled as the code stands, not corrected, because which of the two calls was meant to stay cannot be read from the code.
