/**
 * The year-range filter form: two year inputs, an inline error, and the range
 * handed to `onFilterChange` when the form is applied or cleared.
 *
 * A year input holds `None` when it is empty and `Some(n)` when it holds text
 * that `parseInt` reads as `n`. A bound of the applied range is `None` for
 * JavaScript's `null`.
 */
module FilterControls {
  import opened Wrappers

  /** No film is older than this year. */
  const FirstFilmYear: int := 1888

  /** The range the parent stores and the results are filtered by. */
  datatype YearRange = YearRange(min: Option<int>, max: Option<int>)

  const Unbounded: YearRange := YearRange(None, None)

  /** Why applying the form was refused, in the order the checks run. */
  datatype FilterError = MinAboveMax | BeforeFirstFilm | AfterCurrentYear(currentYear: nat)

  /** The number a string of decimal digits spells, most significant digit first. */
  function DigitsValue(s: string): int
  {
    if s == [] then 0 else DigitsValue(s[..|s| - 1]) * 10 + (s[|s| - 1] as int - '0' as int)
  }

  /** The decimal digits of `n`, as a template literal prints it: no leading zero. */
  function Decimal(n: nat): (s: string)
    ensures |s| > 0
    ensures forall i :: 0 <= i < |s| ==> '0' <= s[i] <= '9'
    ensures DigitsValue(s) == n
    ensures |s| > 1 ==> s[0] != '0'
    ensures n > 0 ==> s[0] != '0'
  {
    var digit := ['0' + (n % 10) as char];
    if n < 10 then digit
    else
      var front := Decimal(n / 10);
      assert (front + digit)[..|front + digit| - 1] == front;
      front + digit
  }

  /** The text shown under the inputs. */
  function Message(e: FilterError): (text: string)
    ensures |text| > 1
    ensures e.MinAboveMax? <==> text[1] == 'i'
    ensures e.BeforeFirstFilm? <==> text[1] == 'o'
    ensures e.AfterCurrentYear? <==> text[1] == 'a'
    ensures e.AfterCurrentYear? ==> text == MaxYearPrefix + Decimal(e.currentYear)
    ensures e.AfterCurrentYear? ==>
      |text| > |MaxYearPrefix| && DigitsValue(text[|MaxYearPrefix|..]) == e.currentYear
  {
    match e
    case MinAboveMax => "Min year cannot be greater than max year"
    case BeforeFirstFilm => "Movies didn't exist before 1888"
    case AfterCurrentYear(year) =>
      var text := MaxYearPrefix + Decimal(year);
      assert text[|MaxYearPrefix|..] == Decimal(year);
      text
  }

  const MaxYearPrefix: string := "Max year cannot be greater than "

  /** Different refusals show different messages, so the message tells which check failed. */
  lemma MessageIdentifiesError(e1: FilterError, e2: FilterError)
    requires Message(e1) == Message(e2)
    ensures e1 == e2
  {
    if e1.AfterCurrentYear? {
      assert Message(e1)[|MaxYearPrefix|..] == Message(e2)[|MaxYearPrefix|..];
    }
  }

  /**
   * The decision of `handleApplyFilter`: with both years filled, the checks
   * run in order and the first failing one wins; otherwise, or when all pass,
   * the filled years become the range.
   */
  function CheckRange(minYear: Option<int>, maxYear: Option<int>, currentYear: nat): (r: Result<YearRange, FilterError>)
    ensures r == Failure(MinAboveMax) <==>
      minYear.Some? && maxYear.Some? && minYear.value > maxYear.value
    ensures r == Failure(BeforeFirstFilm) <==>
      minYear.Some? && maxYear.Some? && minYear.value <= maxYear.value && minYear.value < FirstFilmYear
    ensures r == Failure(AfterCurrentYear(currentYear)) <==>
      minYear.Some? && maxYear.Some? && FirstFilmYear <= minYear.value <= maxYear.value && maxYear.value > currentYear
    ensures r.Success? <==>
      !(minYear.Some? && maxYear.Some?) || FirstFilmYear <= minYear.value <= maxYear.value <= currentYear
    ensures r.Success? ==> r.value == YearRange(minYear, maxYear)
    ensures r.Failure? ==> r.error.AfterCurrentYear? ==> r.error.currentYear == currentYear
  {
    if minYear.Some? && maxYear.Some? then
      var min, max := minYear.value, maxYear.value;
      if min > max then Failure(MinAboveMax)
      else if min < FirstFilmYear then Failure(BeforeFirstFilm)
      else if max > currentYear then Failure(AfterCurrentYear(currentYear))
      else Success(YearRange(minYear, maxYear))
    else Success(YearRange(minYear, maxYear))
  }

  /** JavaScript truthiness of a stored bound. */
  function Truthy(bound: Option<int>): (t: bool)
    ensures !t <==> bound == None || bound == Some(0)
  {
    bound.Some? && bound.value != 0
  }

  /** `yearRange.min || ''`: how the form shows a stored bound. */
  function InputOf(bound: Option<int>): (input: Option<int>)
    ensures input.Some? <==> Truthy(bound)
    ensures input.Some? ==> input == bound
  {
    if Truthy(bound) then bound else None
  }

  /** `hasActiveFilters`: whether the "Active" badge is shown. */
  function HasActiveFilters(yearRange: YearRange): (active: bool)
    ensures active <==> Truthy(yearRange.min) || Truthy(yearRange.max)
  {
    Truthy(yearRange.min) || Truthy(yearRange.max)
  }

  /**
   * A range accepted with both years filled satisfies the range invariant:
   * from 1888 at the earliest, minimum not after maximum, maximum not after
   * the current year.
   */
  lemma AcceptedRangeIsValid(minYear: Option<int>, maxYear: Option<int>, currentYear: nat)
    requires CheckRange(minYear, maxYear, currentYear).Success?
    requires minYear.Some? && maxYear.Some?
    ensures var r := CheckRange(minYear, maxYear, currentYear).value;
      FirstFilmYear <= r.min.value <= r.max.value <= currentYear
  {
  }

  /**
   * After the parent stores an applied range and hands it back, the form shows
   * the years it was applied with, provided neither was 0.
   */
  lemma AppliedRangeShowsBack(minYear: Option<int>, maxYear: Option<int>, currentYear: nat)
    requires CheckRange(minYear, maxYear, currentYear).Success?
    requires minYear != Some(0) && maxYear != Some(0)
    ensures var r := CheckRange(minYear, maxYear, currentYear).value;
      InputOf(r.min) == minYear && InputOf(r.max) == maxYear
      && (HasActiveFilters(r) <==> minYear.Some? || maxYear.Some?)
  {
  }

  /** The quick buttons: "Recent (2020+)" and the decades from the 2010s back to the 1980s. */
  datatype Preset = Recent | Decade(start: int)

  predicate OfferedPreset(p: Preset)
  {
    p.Recent? || p.start in {2010, 2000, 1990, 1980}
  }

  /** The years a preset fills in. */
  function PresetYears(p: Preset, currentYear: nat): (Option<int>, Option<int>)
  {
    match p
    case Recent => (Some(2020), Some(currentYear))
    case Decade(start) => (Some(start), Some(start + 9))
  }

  /** From 2020 on, applying any offered preset passes every check. */
  lemma PresetsPass(p: Preset, currentYear: nat)
    requires OfferedPreset(p) && currentYear >= 2020
    ensures var (lo, hi) := PresetYears(p, currentYear);
      CheckRange(lo, hi, currentYear) == Success(YearRange(lo, hi))
  {
  }

  /** The state of the filter form. */
  class FilterForm {
    var minYear: Option<int>
    var maxYear: Option<int>
    var error: string

    /** The inputs start from the stored range, with no error. */
    constructor (yearRange: YearRange)
      ensures minYear == InputOf(yearRange.min) && maxYear == InputOf(yearRange.max) && error == ""
    {
      minYear := InputOf(yearRange.min);
      maxYear := InputOf(yearRange.max);
      error := "";
    }

    /** The effect on a new stored range: the inputs follow it. */
    method SyncFromRange(yearRange: YearRange)
      modifies this
      ensures minYear == InputOf(yearRange.min) && maxYear == InputOf(yearRange.max) && error == old(error)
    {
      minYear := InputOf(yearRange.min);
      maxYear := InputOf(yearRange.max);
    }

    /** Typing into the minimum input. */
    method SetMinYear(input: Option<int>)
      modifies this`minYear
      ensures minYear == input
    {
      minYear := input;
    }

    /** Typing into the maximum input. */
    method SetMaxYear(input: Option<int>)
      modifies this`maxYear
      ensures maxYear == input
    {
      maxYear := input;
    }

    /** A preset button fills both inputs. */
    method ApplyPreset(p: Preset, currentYear: nat)
      requires OfferedPreset(p)
      modifies this`minYear, this`maxYear
      ensures (minYear, maxYear) == PresetYears(p, currentYear)
    {
      match p {
        case Recent =>
          minYear, maxYear := Some(2020), Some(currentYear);
        case Decade(start) =>
          minYear, maxYear := Some(start), Some(start + 9);
      }
    }

    /**
     * `handleApplyFilter`: clears the error, then either shows the first
     * failing check's message or hands the filled years to `onFilterChange`.
     */
    method ApplyFilter(currentYear: nat) returns (emitted: Option<YearRange>)
      modifies this`error
      ensures match CheckRange(minYear, maxYear, currentYear)
        case Success(range) => emitted == Some(range) && error == ""
        case Failure(e) => emitted == None && error == Message(e)
    {
      error := "";
      if minYear.Some? && maxYear.Some? {
        var min, max := minYear.value, maxYear.value;
        if min > max {
          error := Message(MinAboveMax);
          return None;
        }
        if min < FirstFilmYear {
          error := Message(BeforeFirstFilm);
          return None;
        }
        if max > currentYear {
          error := Message(AfterCurrentYear(currentYear));
          return None;
        }
      }
      emitted := Some(YearRange(minYear, maxYear));
    }

    /** `handleClearFilter`: empties both inputs and the error and hands on an unbounded range. */
    method ClearFilter() returns (emitted: YearRange)
      modifies this
      ensures emitted == Unbounded && !HasActiveFilters(emitted)
      ensures minYear == None && maxYear == None && error == ""
    {
      minYear := None;
      maxYear := None;
      error := "";
      emitted := Unbounded;
    }
  }
}
