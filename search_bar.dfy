/**
 * The search bar: the typed query, the inline validation message, and the
 * keyboard selection over the autocomplete dropdown. `onSearch` is modelled
 * by the term each handler hands to it, returned as `sent`.
 */
module SearchBar {
  import opened Wrappers
  import opened Autocomplete

  const EmptyTermMessage: string := "Please enter a search term"
  const ShortTermMessage: string := "Please enter at least 3 characters"

  /** A search term must keep at least this many characters after trimming. */
  const MinTermLength: nat := 3

  /** The bar asks its autocomplete hook for suggestions from two characters on. */
  const AutocompleteMinChars: nat := 2

  // ---------------------------------------------------------------------------
  // Trimming

  /** The characters JavaScript's `trim` removes: white space and line terminators. */
  const JsWhitespace: set<char> := {
    '\t', '\n', '\U{000B}', '\U{000C}', '\r', ' ', '\U{00A0}', '\U{1680}',
    '\U{2000}', '\U{2001}', '\U{2002}', '\U{2003}', '\U{2004}', '\U{2005}',
    '\U{2006}', '\U{2007}', '\U{2008}', '\U{2009}', '\U{200A}',
    '\U{2028}', '\U{2029}', '\U{202F}', '\U{205F}', '\U{3000}', '\U{FEFF}'
  }

  predicate IsWhitespace(c: char)
  {
    c in JsWhitespace
  }

  /** How many white-space characters `s` starts with. */
  function LeadingBlanks(s: string): (n: nat)
    ensures n <= |s|
    ensures forall k :: 0 <= k < n ==> IsWhitespace(s[k])
    ensures n < |s| ==> !IsWhitespace(s[n])
    decreases |s|
  {
    if s != [] && IsWhitespace(s[0]) then 1 + LeadingBlanks(s[1..]) else 0
  }

  /** Where the white space `s` ends with begins. */
  function TrailingBlanksStart(s: string): (m: nat)
    ensures m <= |s|
    ensures forall k :: m <= k < |s| ==> IsWhitespace(s[k])
    ensures m > 0 ==> !IsWhitespace(s[m - 1])
    decreases |s|
  {
    if s != [] && IsWhitespace(s[|s| - 1]) then TrailingBlanksStart(s[..|s| - 1]) else |s|
  }

  /** `r` is `s[i..i + |r|]` and everything of `s` around it is white space. */
  predicate TrimmedAt(s: string, r: string, i: int)
  {
    && 0 <= i <= |s| - |r| && r == s[i..i + |r|]
    && (forall k :: 0 <= k < i ==> IsWhitespace(s[k]))
    && (forall k :: i + |r| <= k < |s| ==> IsWhitespace(s[k]))
  }

  /** `s.trim()`: `s` without its leading and trailing white space. */
  function Trim(s: string): (r: string)
    ensures |r| <= |s|
    ensures r != [] ==> !IsWhitespace(r[0]) && !IsWhitespace(r[|r| - 1])
  {
    var i, j := LeadingBlanks(s), TrailingBlanksStart(s);
    if i < j then s[i..j] else []
  }

  /**
   * The trimmed text is a contiguous part of `s` with only white space around
   * it, and it is empty exactly when `s` is all white space.
   */
  lemma TrimIsInner(s: string)
    ensures exists i :: TrimmedAt(s, Trim(s), i)
    ensures Trim(s) == [] <==> forall k :: 0 <= k < |s| ==> IsWhitespace(s[k])
  {
    var i, j := LeadingBlanks(s), TrailingBlanksStart(s);
    if i < j {
      assert TrimmedAt(s, Trim(s), i);
    } else {
      assert i == |s|;
      assert TrimmedAt(s, Trim(s), i);
    }
  }

  /** Trimming a trimmed term changes nothing. */
  lemma TrimIdempotent(s: string)
    ensures Trim(Trim(s)) == Trim(s)
  {
    var r := Trim(s);
    if r != [] {
      assert LeadingBlanks(r) == 0;
      assert TrailingBlanksStart(r) == |r|;
      assert r[0..|r|] == r;
    }
  }

  // ---------------------------------------------------------------------------
  // Validation of a search term

  /** What `performSearch` decides: the message it shows, or the term it searches. */
  datatype Verdict = Rejected(message: string) | Accepted(term: string)

  function Validate(searchTerm: string): (v: Verdict)
    ensures v == Rejected(EmptyTermMessage) <==> Trim(searchTerm) == []
    ensures v == Rejected(ShortTermMessage) <==> 0 < |Trim(searchTerm)| < MinTermLength
    ensures v.Accepted? <==> |Trim(searchTerm)| >= MinTermLength
    ensures v.Accepted? ==> v.term == Trim(searchTerm)
  {
    assert EmptyTermMessage != ShortTermMessage by {
      assert |EmptyTermMessage| == 26 && |ShortTermMessage| == 34;
    }
    var t := Trim(searchTerm);
    if t == [] then Rejected(EmptyTermMessage)
    else if |t| < MinTermLength then Rejected(ShortTermMessage)
    else Accepted(t)
  }

  /** `searchQuery || query`: an absent or empty explicit term falls back to the typed query. */
  function SearchTerm(searchQuery: Option<string>, query: string): (term: string)
    ensures searchQuery.Some? && searchQuery.value != [] ==> term == searchQuery.value
    ensures searchQuery.None? || searchQuery.value == [] ==> term == query
    ensures term == [] ==> query == []
  {
    if searchQuery.Some? && searchQuery.value != [] then searchQuery.value else query
  }

  /** The term `performSearch(searchQuery)` hands to `onSearch`, if any. */
  function Submission(searchQuery: Option<string>, query: string): (sent: Option<string>)
    ensures sent.Some? <==> Validate(SearchTerm(searchQuery, query)).Accepted?
    ensures sent.Some? ==> sent.value == Trim(SearchTerm(searchQuery, query))
  {
    match Validate(SearchTerm(searchQuery, query))
    case Accepted(term) => Some(term)
    case Rejected(_) => None
  }

  /** The validation message `performSearch(searchQuery)` leaves behind. */
  function ErrorAfter(searchQuery: Option<string>, query: string): (msg: string)
    ensures msg == "" <==> Submission(searchQuery, query).Some?
  {
    match Validate(SearchTerm(searchQuery, query))
    case Accepted(_) => ""
    case Rejected(m) => m
  }

  /**
   * A term handed to `onSearch` is at least three characters long, starts and
   * ends with a non-blank character, and would be handed on unchanged if it
   * were submitted again.
   */
  lemma SubmittedTermIsStable(searchQuery: Option<string>, query: string)
    requires Submission(searchQuery, query).Some?
    ensures var t := Submission(searchQuery, query).value;
      && |t| >= MinTermLength
      && !IsWhitespace(t[0]) && !IsWhitespace(t[|t| - 1])
      && Submission(Some(t), query) == Some(t)
  {
    var st := SearchTerm(searchQuery, query);
    var t := Trim(st);
    TrimIdempotent(st);
    AcceptsTrimmed(t);
    assert SearchTerm(Some(t), query) == t;
  }

  /** A term that trimming leaves alone and that has three characters is searched as it is. */
  lemma AcceptsTrimmed(t: string)
    requires Trim(t) == t && |t| >= MinTermLength
    ensures Validate(t) == Accepted(t)
  {
  }

  // ---------------------------------------------------------------------------
  // Keyboard selection

  datatype Key = ArrowDown | ArrowUp | Enter | Escape | OtherKey

  /** ArrowDown: one entry further, unless the last entry is already selected. */
  function MoveDown(prev: int, count: nat): (next: int)
    ensures next == prev + 1 || next == prev
    ensures next == prev <==> prev >= count - 1
    ensures -1 <= prev < count ==> -1 <= next < count
  {
    if prev < count - 1 then prev + 1 else prev
  }

  /** ArrowUp: one entry back, or back to "nothing selected" from the first entry. */
  function MoveUp(prev: int): (next: int)
    ensures next == prev - 1 || next == -1
    ensures next == -1 <==> prev <= 0
    ensures prev >= -1 ==> -1 <= next <= prev
  {
    if prev > 0 then prev - 1 else -1
  }

  function DownTimes(n: nat, prev: int, count: nat): int
  {
    if n == 0 then prev else DownTimes(n - 1, MoveDown(prev, count), count)
  }

  function UpTimes(n: nat, prev: int): int
  {
    if n == 0 then prev else UpTimes(n - 1, MoveUp(prev))
  }

  /** Over a fixed list, the arrow keys keep the selection on an entry or on "nothing selected". */
  lemma ArrowsStayInRange(prev: int, count: nat)
    requires -1 <= prev < count
    ensures -1 <= MoveDown(prev, count) < count
    ensures -1 <= MoveUp(prev) < count
  {
  }

  /** Pressing ArrowDown n times advances n entries, stopping at the last one. */
  lemma {:induction false} DownTimesClamps(n: nat, prev: int, count: nat)
    requires -1 <= prev < count
    ensures DownTimes(n, prev, count) == Min(prev + n, count - 1)
  {
    if n > 0 {
      DownTimesClamps(n - 1, MoveDown(prev, count), count);
    }
  }

  /** Pressing ArrowUp n times goes back n entries, stopping at "nothing selected". */
  lemma {:induction false} UpTimesClamps(n: nat, prev: int)
    requires prev >= -1
    ensures UpTimes(n, prev) == if prev - n < -1 then -1 else prev - n
  {
    if n > 0 {
      UpTimesClamps(n - 1, MoveUp(prev));
    }
  }

  // ---------------------------------------------------------------------------
  // The component

  class SearchBox {
    var query: string
    var validationError: string
    var selectedIndex: int
    const autocomplete: Suggester

    ghost predicate Valid()
      reads this, autocomplete
    {
      autocomplete.Valid() && autocomplete.minChars == AutocompleteMinChars
    }

    /** Whether the keys drive the dropdown: it is shown and has entries. */
    predicate Navigating()
      reads this, autocomplete
    {
      autocomplete.showSuggestions && |autocomplete.suggestions| > 0
    }

    /** The selection is on a suggestion or on "nothing selected". */
    predicate IndexInRange()
      reads this, autocomplete
    {
      -1 <= selectedIndex < |autocomplete.suggestions|
    }

    constructor ()
      ensures Valid() && fresh(autocomplete)
      ensures query == "" && validationError == "" && selectedIndex == -1
      ensures autocomplete.View() == Dropdown([], false)
    {
      query := "";
      validationError := "";
      selectedIndex := -1;
      autocomplete := new Suggester(AutocompleteMinChars);
    }

    /**
     * `performSearch(searchQuery)`: validates `searchQuery || query`; a
     * rejected term only sets its message, an accepted one clears the
     * suggestions, drops the selection and is handed to `onSearch`.
     */
    method PerformSearch(searchQuery: Option<string>) returns (sent: Option<string>)
      requires Valid()
      modifies this, autocomplete
      ensures Valid()
      ensures sent == Submission(searchQuery, old(query))
      ensures validationError == ErrorAfter(searchQuery, old(query))
      ensures query == old(query)
      ensures sent.None? ==> selectedIndex == old(selectedIndex) && unchanged(autocomplete)
      ensures sent.Some? ==> selectedIndex == -1 && autocomplete.View() == Dropdown([], false) && !autocomplete.loading
    {
      var searchTerm := SearchTerm(searchQuery, query);
      validationError := "";
      match Validate(searchTerm) {
        case Rejected(message) =>
          validationError := message;
          sent := None;
        case Accepted(term) =>
          autocomplete.ClearSuggestions();
          selectedIndex := -1;
          sent := Some(term);
      }
    }

    /** `handleSubmit`: the form's submit event searches the typed query. */
    method HandleSubmit() returns (sent: Option<string>)
      requires Valid()
      modifies this, autocomplete
      ensures Valid()
      ensures sent == Submission(None, old(query)) && query == old(query)
      ensures validationError == ErrorAfter(None, old(query))
      ensures sent.None? ==> selectedIndex == old(selectedIndex) && unchanged(autocomplete)
      ensures sent.Some? ==> selectedIndex == -1 && autocomplete.View() == Dropdown([], false) && !autocomplete.loading
    {
      sent := PerformSearch(None);
    }

    /** The input's `onChange`: new text, no message, no selection. */
    method OnChange(value: string)
      modifies this
      ensures query == value && validationError == "" && selectedIndex == -1
    {
      query := value;
      validationError := "";
      selectedIndex := -1;
    }

    /** `handleClear`: empties the input, the message and the dropdown, and drops the selection. */
    method HandleClear()
      requires Valid()
      modifies this, autocomplete
      ensures Valid()
      ensures query == "" && validationError == "" && selectedIndex == -1
      ensures autocomplete.View() == Dropdown([], false) && !autocomplete.loading
    {
      query := "";
      validationError := "";
      autocomplete.ClearSuggestions();
      selectedIndex := -1;
    }

    /**
     * The effect on the debounced query: once the typed text has settled, a
     * non-empty query asks for suggestions, answered with `outcome`.
     */
    method QuerySettled(outcome: SearchOutcome)
      requires Valid()
      modifies autocomplete
      ensures Valid()
      ensures query != "" ==> autocomplete.View() == AfterFetch(query, AutocompleteMinChars, outcome, old(autocomplete.View()))
      ensures query != "" ==>
        && !autocomplete.loading
        && autocomplete.aborted == old(autocomplete.aborted)
             + (if old(autocomplete.controller).Some? then {old(autocomplete.controller).value} else {})
        && autocomplete.controller == (if Requests(query, AutocompleteMinChars)
             then Some(old(autocomplete.issued) + 1) else old(autocomplete.controller))
      ensures query == "" ==> unchanged(autocomplete)
    {
      if query != "" {
        var _ := autocomplete.FetchSuggestions(query, outcome);
      }
    }

    /** The input's `onFocus`: refetch when there is a query of two characters and a list. */
    method OnFocus(outcome: SearchOutcome)
      requires Valid()
      modifies autocomplete
      ensures Valid()
      ensures |query| >= 2 && old(|autocomplete.suggestions|) > 0 ==>
        autocomplete.View() == AfterFetch(query, AutocompleteMinChars, outcome, old(autocomplete.View()))
      ensures |query| >= 2 && old(|autocomplete.suggestions|) > 0 ==>
        && !autocomplete.loading
        && autocomplete.aborted == old(autocomplete.aborted)
             + (if old(autocomplete.controller).Some? then {old(autocomplete.controller).value} else {})
        && autocomplete.controller == (if Requests(query, AutocompleteMinChars)
             then Some(old(autocomplete.issued) + 1) else old(autocomplete.controller))
      ensures !(|query| >= 2 && old(|autocomplete.suggestions|) > 0) ==> unchanged(autocomplete)
    {
      if |query| >= 2 && |autocomplete.suggestions| > 0 {
        var _ := autocomplete.FetchSuggestions(query, outcome);
      }
    }

    /** `handleSuggestionClick(movie)`: the title becomes the query and is searched. */
    method SuggestionClick(movie: Movie) returns (sent: Option<string>)
      requires Valid()
      modifies this, autocomplete
      ensures Valid()
      ensures sent == Submission(Some(movie.title), old(query))
      ensures query == movie.title
      ensures validationError == ErrorAfter(Some(movie.title), old(query))
      ensures sent.None? ==> selectedIndex == old(selectedIndex) && unchanged(autocomplete)
      ensures sent.Some? ==> selectedIndex == -1 && autocomplete.View() == Dropdown([], false) && !autocomplete.loading
    {
      sent := PerformSearch(Some(movie.title));
      query := movie.title;
    }

    /** Hovering over the entry at `index` selects it. */
    method Hover(index: int)
      requires 0 <= index < |autocomplete.suggestions|
      modifies this`selectedIndex
      ensures selectedIndex == index && IndexInRange()
    {
      selectedIndex := index;
    }

    /**
     * `handleKeyDown`. `threw` reports the TypeError raised by Enter when the
     * selection points past the end of the list (`suggestions[selectedIndex]`
     * is then undefined and its `Title` cannot be read); nothing changes then.
     */
    method HandleKeyDown(key: Key) returns (sent: Option<string>, threw: bool)
      requires Valid()
      modifies this, autocomplete
      ensures Valid()
      ensures threw <==> old(Navigating()) && key == Enter && old(selectedIndex) >= old(|autocomplete.suggestions|)
      ensures threw ==> sent == None && unchanged(this) && unchanged(autocomplete)
      // arrow keys move the selection over the unchanged list
      ensures old(Navigating()) && key == ArrowDown ==>
        selectedIndex == MoveDown(old(selectedIndex), old(|autocomplete.suggestions|))
      ensures old(Navigating()) && key == ArrowUp ==> selectedIndex == MoveUp(old(selectedIndex))
      ensures old(Navigating()) && (key == ArrowDown || key == ArrowUp) ==>
        && sent == None && query == old(query) && validationError == old(validationError)
        && unchanged(autocomplete)
        && (old(IndexInRange()) ==> IndexInRange())
      // Enter searches the selected title, or the typed query when nothing is selected
      ensures old(Navigating()) && key == Enter && 0 <= old(selectedIndex) < old(|autocomplete.suggestions|) ==>
        var title := old(autocomplete.suggestions[selectedIndex]).title;
        sent == Submission(Some(title), old(query)) && query == title
        && validationError == ErrorAfter(Some(title), old(query))
      ensures key == Enter && !(old(Navigating()) && old(selectedIndex) >= 0) ==>
        sent == Submission(None, old(query)) && query == old(query)
        && validationError == ErrorAfter(None, old(query))
      ensures key == Enter && !threw && sent.None? ==>
        selectedIndex == old(selectedIndex) && unchanged(autocomplete)
      ensures sent.Some? ==> selectedIndex == -1 && autocomplete.View() == Dropdown([], false)
      // Escape hides the list, keeps it, and drops the selection
      ensures old(Navigating()) && key == Escape ==>
        && sent == None && selectedIndex == -1 && query == old(query) && validationError == old(validationError)
        && autocomplete.View() == Dropdown(old(autocomplete.suggestions), false)
        && autocomplete.loading == old(autocomplete.loading)
        && autocomplete.controller == old(autocomplete.controller)
        && autocomplete.issued == old(autocomplete.issued)
        && autocomplete.aborted == old(autocomplete.aborted)
      // without a shown list, and for any other key, nothing but Enter acts
      ensures (key == OtherKey || (!old(Navigating()) && key != Enter)) ==>
        sent == None && unchanged(this) && unchanged(autocomplete)
    {
      sent, threw := None, false;
      if autocomplete.showSuggestions && |autocomplete.suggestions| > 0 {
        match key {
          case ArrowDown =>
            selectedIndex := MoveDown(selectedIndex, |autocomplete.suggestions|);
          case ArrowUp =>
            selectedIndex := MoveUp(selectedIndex);
          case Enter =>
            sent, threw := EnterOnList();
          case Escape =>
            autocomplete.HideSuggestions();
            selectedIndex := -1;
          case OtherKey =>
        }
      } else if key == Enter {
        sent := PerformSearch(None);
      }
    }

    /**
     * Enter pressed in the input, as a browser handles it: `handleKeyDown`
     * runs, and unless it called `preventDefault` (it does so only while the
     * dropdown is shown) the form is submitted and `handleSubmit` runs too.
     * `searches` lists the terms handed to `onSearch`, in order. Without a
     * shown dropdown an accepted query is handed on twice.
     */
    method PressEnter() returns (searches: seq<string>, threw: bool)
      requires Valid()
      modifies this, autocomplete
      ensures Valid()
      ensures old(Navigating()) ==> |searches| <= 1
      ensures !old(Navigating()) ==>
        && !threw && query == old(query)
        && validationError == ErrorAfter(None, old(query))
        && searches == (match Submission(None, old(query))
             case Some(term) => [term, term]
             case None => [])
    {
      var navigating := Navigating();
      var sent;
      sent, threw := HandleKeyDown(Enter);
      searches := if sent.Some? then [sent.value] else [];
      if !navigating && !threw {
        var again := HandleSubmit();
        if again.Some? {
          searches := searches + [again.value];
        }
      }
    }

    /** Enter while the dropdown is shown: search the selected title, or the typed query. */
    method EnterOnList() returns (sent: Option<string>, threw: bool)
      requires Valid()
      modifies this, autocomplete
      ensures Valid()
      ensures threw <==> old(selectedIndex) >= old(|autocomplete.suggestions|)
      ensures threw ==> sent == None && unchanged(this) && unchanged(autocomplete)
      ensures 0 <= old(selectedIndex) < old(|autocomplete.suggestions|) ==>
        var title := old(autocomplete.suggestions[selectedIndex]).title;
        sent == Submission(Some(title), old(query)) && query == title
        && validationError == ErrorAfter(Some(title), old(query))
      ensures old(selectedIndex) < 0 ==>
        sent == Submission(None, old(query)) && query == old(query)
        && validationError == ErrorAfter(None, old(query))
      ensures !threw && sent.None? ==> selectedIndex == old(selectedIndex) && unchanged(autocomplete)
      ensures sent.Some? ==> selectedIndex == -1 && autocomplete.View() == Dropdown([], false)
    {
      sent, threw := None, false;
      if selectedIndex >= 0 {
        if selectedIndex < |autocomplete.suggestions| {
          var title := autocomplete.suggestions[selectedIndex].title;
          sent := PerformSearch(Some(title));
          query := title;
        } else {
          threw := true;
        }
      } else {
        sent := PerformSearch(None);
      }
    }
  }
}
