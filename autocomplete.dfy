/**
 * The autocomplete hook: a short list of movie suggestions fetched for the
 * text being typed, whether that list is shown, and whether a fetch is in
 * progress. The answer of the remote search is a parameter of each fetch.
 */
module Autocomplete {
  import opened Wrappers

  /** At most this many suggestions are kept from a search answer. */
  const MaxSuggestions: nat := 5

  /** A movie record as the remote search returns it. */
  datatype Movie = Movie(imdbId: string, title: string, year: string, poster: string, kind: string)

  /**
   * How the awaited `searchMovies(query, 1)` ended: it returned a result
   * (its `success` flag and its movie list), or it threw, either an
   * `AbortError` or any other error.
   */
  datatype SearchOutcome =
    | Returned(success: bool, movies: seq<Movie>)
    | Threw(isAbortError: bool)

  /** The part of the hook's state the suggestion dropdown reads. */
  datatype Dropdown = Dropdown(suggestions: seq<Movie>, visible: bool)

  /** The dropdown never holds more than five entries and is shown only with entries. */
  predicate WellFormed(d: Dropdown)
  {
    |d.suggestions| <= MaxSuggestions && (d.visible ==> d.suggestions != [])
  }

  function Min(a: int, b: int): int
  {
    if a < b then a else b
  }

  /** Whether `fetchSuggestions(query)` goes on to ask the remote search. */
  function Requests(query: string, minChars: nat): (asks: bool)
    ensures asks ==> query != [] && |query| >= minChars
    ensures minChars > 0 ==> (asks <==> |query| >= minChars)
    ensures minChars == 0 ==> (asks <==> query != [])
  {
    query != [] && |query| >= minChars
  }

  /** The dropdown once the remote search answered with `outcome`. */
  function Settle(outcome: SearchOutcome, prev: Dropdown): (r: Dropdown)
    ensures outcome.Returned? && outcome.success && outcome.movies != [] ==>
      r.visible
      && |r.suggestions| == Min(|outcome.movies|, MaxSuggestions)
      && (forall i :: 0 <= i < |r.suggestions| ==> r.suggestions[i] == outcome.movies[i])
    ensures outcome.Returned? && !(outcome.success && outcome.movies != []) ==> r == Dropdown([], false)
    ensures outcome == Threw(false) ==> r == Dropdown([], false)
    ensures outcome == Threw(true) ==> r == prev
    ensures WellFormed(prev) ==> WellFormed(r)
  {
    match outcome
    case Returned(success, movies) =>
      if success && |movies| > 0 then Dropdown(movies[..Min(|movies|, MaxSuggestions)], true)
      else Dropdown([], false)
    case Threw(isAbortError) =>
      if isAbortError then prev else Dropdown([], false)
  }

  /** The dropdown after one complete `fetchSuggestions(query)` call. */
  function AfterFetch(query: string, minChars: nat, outcome: SearchOutcome, prev: Dropdown): (r: Dropdown)
    ensures !Requests(query, minChars) ==> r == Dropdown([], false)
    ensures Requests(query, minChars) ==> r == Settle(outcome, prev)
    ensures WellFormed(prev) ==> WellFormed(r)
  {
    if !Requests(query, minChars) then Dropdown([], false) else Settle(outcome, prev)
  }

  /** The state of one `useAutocomplete(minChars)` hook. */
  class Suggester {
    const minChars: nat
    var suggestions: seq<Movie>
    var showSuggestions: bool
    var loading: bool
    /** `abortControllerRef.current`: `None` for null, otherwise the number of the controller. */
    var controller: Option<nat>
    /** How many abort controllers have been created. */
    var issued: nat
    /** The controllers whose `abort()` has been called. */
    var aborted: set<nat>

    function View(): Dropdown
      reads this
    {
      Dropdown(suggestions, showSuggestions)
    }

    /** The dropdown is well formed, and every controller but the latest has been aborted. */
    ghost predicate Valid()
      reads this
    {
      && WellFormed(View())
      && (controller.None? <==> issued == 0)
      && (controller.Some? ==> controller.value == issued)
      && (forall id :: 1 <= id < issued ==> id in aborted)
    }

    constructor (minChars: nat)
      ensures Valid()
      ensures this.minChars == minChars
      ensures suggestions == [] && !showSuggestions && !loading
      ensures controller == None && aborted == {}
    {
      this.minChars := minChars;
      suggestions := [];
      showSuggestions := false;
      loading := false;
      controller := None;
      issued := 0;
      aborted := {};
    }

    /** Aborts the current controller, if there is one. */
    method AbortCurrent()
      requires Valid()
      modifies this`aborted
      ensures Valid()
      ensures aborted == old(aborted) + (if controller.Some? then {controller.value} else {})
    {
      if controller.Some? {
        aborted := aborted + {controller.value};
      }
    }

    /**
     * `fetchSuggestions(query)`, where the remote search ends with `outcome`.
     * `requested` tells whether the remote search was asked at all.
     */
    method FetchSuggestions(query: string, outcome: SearchOutcome) returns (requested: bool)
      requires Valid()
      modifies this
      ensures Valid()
      ensures requested <==> Requests(query, minChars)
      ensures View() == Step(minChars, Fetch(query, outcome), old(View()))
      ensures !loading
      ensures aborted == old(aborted) + (if old(controller).Some? then {old(controller).value} else {})
      ensures issued == (if requested then old(issued) + 1 else old(issued))
      ensures requested ==> controller == Some(old(issued) + 1)
      ensures !requested ==> controller == old(controller)
    {
      AbortCurrent();
      if query == [] || |query| < minChars {
        suggestions := [];
        showSuggestions := false;
        loading := false;
        return false;
      }
      requested := true;
      loading := true;
      issued := issued + 1;
      controller := Some(issued);
      match outcome {
        case Returned(success, movies) =>
          if success && |movies| > 0 {
            suggestions := movies[..Min(|movies|, MaxSuggestions)];
            showSuggestions := true;
          } else {
            suggestions := [];
            showSuggestions := false;
          }
        case Threw(isAbortError) =>
          if !isAbortError {
            suggestions := [];
            showSuggestions := false;
          }
      }
      loading := false;
    }

    /** `clearSuggestions`: empties and hides the list, stops loading and aborts the current request. */
    method ClearSuggestions()
      requires Valid()
      modifies this
      ensures Valid()
      ensures View() == Step(minChars, Clear, old(View())) && !loading
      ensures controller == old(controller) && issued == old(issued)
      ensures aborted == old(aborted) + (if controller.Some? then {controller.value} else {})
    {
      suggestions := [];
      showSuggestions := false;
      loading := false;
      AbortCurrent();
    }

    /** `hideSuggestions`: hides the list and keeps it. */
    method HideSuggestions()
      requires Valid()
      modifies this`showSuggestions
      ensures Valid()
      ensures View() == Step(minChars, Hide, old(View()))
    {
      showSuggestions := false;
    }
  }

  /** The three calls the hook offers, as its owner issues them. */
  datatype Call = Fetch(query: string, outcome: SearchOutcome) | Clear | Hide

  /** The dropdown after one call. */
  function Step(minChars: nat, call: Call, d: Dropdown): (r: Dropdown)
    ensures call.Hide? ==> r.suggestions == d.suggestions && !r.visible
    ensures call.Clear? ==> r == Dropdown([], false)
  {
    match call
    case Fetch(query, outcome) => AfterFetch(query, minChars, outcome, d)
    case Clear => Dropdown([], false)
    case Hide => Dropdown(d.suggestions, false)
  }

  /** The dropdown after a series of calls. */
  function Run(minChars: nat, calls: seq<Call>, d: Dropdown): Dropdown
    decreases |calls|
  {
    if calls == [] then d else Run(minChars, calls[1..], Step(minChars, calls[0], d))
  }

  /**
   * Whatever the owner calls and whatever the remote search answers, the
   * dropdown never holds more than five suggestions and is shown only with some.
   */
  lemma {:induction false} RunKeepsWellFormed(minChars: nat, calls: seq<Call>, d: Dropdown)
    requires WellFormed(d)
    ensures WellFormed(Run(minChars, calls, d))
    decreases |calls|
  {
    if calls != [] {
      RunKeepsWellFormed(minChars, calls[1..], Step(minChars, calls[0], d));
    }
  }
}
