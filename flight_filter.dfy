/**
 * The filter panel: a price range slider, three checkbox groups (airlines,
 * stop categories, departure times) whose selections toggle in and out of a
 * list, and the buttons that hand the criteria to the results page or reset
 * them to the defaults.
 */
module FlightFilter {
  import opened Wrappers
  import opened Seqs
  import opened Text
  import opened FlightData
  import opened FlightsPage

  /** One checkbox: the id put into the selection list and the label shown. */
  datatype FilterOption = FilterOption(id: string, name: string)

  const AirlineOptions: seq<FilterOption> := [
    FilterOption("delta", "Delta Airlines"),
    FilterOption("united", "United Airlines"),
    FilterOption("american", "American Airlines"),
    FilterOption("lufthansa", "Lufthansa"),
    FilterOption("emirates", "Emirates")
  ]

  const StopOptions: seq<FilterOption> := [
    FilterOption("nonstop", "Non-stop"),
    FilterOption("1stop", "1 Stop"),
    FilterOption("2stops", "2+ Stops")
  ]

  /** The slider's bounds; also the initial and the cleared range. */
  const SliderMin := 0
  const SliderMax := 2000
  const DefaultPriceRange := PriceRange(SliderMin, SliderMax)
  const DefaultCriteria := FilterCriteria(DefaultPriceRange, [], [], [])

  /**
   * The airline checkboxes against the results page's normalisation: the
   * one-word names normalise to their ids, but each two-word name keeps its
   * second word, so "Delta Airlines" becomes "deltaairlines", not "delta".
   */
  lemma AirlineOptionIds()
    ensures AirlineId(AirlineOptions[0].name) == AirlineOptions[0].id + "airlines"
    ensures AirlineId(AirlineOptions[1].name) == AirlineOptions[1].id + "airlines"
    ensures AirlineId(AirlineOptions[2].name) == AirlineOptions[2].id + "airlines"
    ensures AirlineId(AirlineOptions[3].name) == AirlineOptions[3].id
    ensures AirlineId(AirlineOptions[4].name) == AirlineOptions[4].id
  {
    DeltaOptionId();
    UnitedOptionId();
    AmericanOptionId();
    LufthansaOptionId();
    EmiratesOptionId();
  }

  // One lemma per checkbox, so that each proof unfolds a single name.

  lemma LufthansaOptionId()
    ensures AirlineId(AirlineOptions[3].name) == AirlineOptions[3].id
  {
    CapitalisedWordId("Lufthansa", "lufthansa");
  }

  lemma EmiratesOptionId()
    ensures AirlineId(AirlineOptions[4].name) == AirlineOptions[4].id
  {
    CapitalisedWordId("Emirates", "emirates");
  }

  lemma DeltaOptionId()
    ensures AirlineId(AirlineOptions[0].name) == AirlineOptions[0].id + "airlines"
  {
    TwoWordOptionId(AirlineOptions[0], "Delta", "delta");
  }

  lemma UnitedOptionId()
    ensures AirlineId(AirlineOptions[1].name) == AirlineOptions[1].id + "airlines"
  {
    TwoWordOptionId(AirlineOptions[1], "United", "united");
  }

  lemma AmericanOptionId()
    ensures AirlineId(AirlineOptions[2].name) == AirlineOptions[2].id + "airlines"
  {
    TwoWordOptionId(AirlineOptions[2], "American", "american");
  }

  /** An option named "<Word> Airlines" with id "<word>" normalises to the id followed by "airlines". */
  lemma TwoWordOptionId(o: FilterOption, word: string, id: string)
    requires o.name == word + " Airlines" && o.id == id
    requires |id| > 0 && |word| == |id| && IsAsciiUpper(word[0])
    requires id[0] == (word[0] as int + 32) as char && word[1..] == id[1..]
    requires forall i :: 0 <= i < |id| ==> 'a' <= id[i] <= 'z'
    ensures AirlineId(o.name) == id + "airlines"
  {
    var second, lower := "Airlines", "airlines";
    assert second[1..] == lower[1..];
    assert forall i :: 0 <= i < |lower| ==> 'a' <= lower[i] <= 'z';
    assert word + " Airlines" == word + " " + second;
    CapitalisedTwoWordId(word, second, id, lower);
  }

  /** The stop checkboxes are exactly the categories the results page recognises: 0, 1, and 2 or more stops. */
  lemma StopOptionIds(n: nat)
    ensures StopCategory(n) == StopOptions[if n < 2 then n else 2].id
  {
  }

  // ---------------------------------------------------------------------
  // Toggling a checkbox
  // ---------------------------------------------------------------------

  /**
   * The three change handlers: a selected id is filtered out (every
   * occurrence), an unselected one is appended. Either way the checkbox of
   * `id` flips and every other checkbox stays as it was.
   */
  function Toggle(selected: seq<string>, id: string): (r: seq<string>)
    ensures id in r <==> id !in selected
    ensures forall x :: x != id ==> (x in r <==> x in selected)
  {
    if id in selected then
      KeepOtherThanMembership(selected, id);
      Keep(selected, OtherThan(id))
    else selected + [id]
  }

  /** Checking and then unchecking a box restores the list exactly. */
  lemma ToggleTwiceRestores(selected: seq<string>, id: string)
    requires id !in selected
    ensures Toggle(Toggle(selected, id), id) == selected
  {
    var once := selected + [id];
    assert once[|selected|] == id;
    KeepAppend(selected, id, OtherThan(id));
    KeepOtherThanAbsent(selected, id);
  }

  /** Unchecking and then checking again a box keeps the same selection but moves the id to the end. */
  lemma ToggleTwiceMovesToEnd(selected: seq<string>, id: string)
    requires id in selected
    ensures Toggle(Toggle(selected, id), id) == Keep(selected, OtherThan(id)) + [id]
  {
    KeepOtherThanMembership(selected, id);
  }

  /** A toggle never puts an id into the list twice. */
  lemma ToggleNoDuplicates(selected: seq<string>, id: string)
    requires NoDuplicates(selected)
    ensures NoDuplicates(Toggle(selected, id))
  {
    if id in selected {
      KeepNoDuplicates(selected, OtherThan(id));
    } else {
      var r := selected + [id];
      forall i, j | 0 <= i < j < |r| ensures r[i] != r[j] {
        assert r[i] == selected[i];
        if j == |selected| {
          assert r[j] == id;
        } else {
          assert r[j] == selected[j];
        }
      }
    }
  }

  // ---------------------------------------------------------------------
  // The slider's labels
  // ---------------------------------------------------------------------

  /** `$${priceRange[k]}`: the text under each end of the slider. */
  function PriceLabel(v: int): (r: string)
    ensures |r| >= 2 && r[0] == '$'
    ensures v >= 0 ==> ParseInt(r[1..]) == Some(v)
  {
    var digits := IntString(v);
    assert ("$" + digits)[1..] == digits;
    if v >= 0 then
      assert digits == DecimalString(v) + "";
      ParseIntDecimal(v, "");
      "$" + digits
    else
      "$" + digits
  }

  /**
   * A price written the way the slider labels its bounds is read back by the
   * results page's price parser as that bound.
   */
  lemma PriceLabelParses(v: nat)
    ensures ParseInt(RemoveFirst(PriceLabel(v), '$')) == Some(v)
  {
    var s := PriceLabel(v);
    assert s[0] == '$';
    assert RemoveFirst(s, '$') == DecimalString(v) + "";
    ParseIntDecimal(v, "");
  }

  /** Both bounds are inclusive: a flight priced exactly at a bound shown on the slider passes the price rule. */
  lemma BoundsAreInclusive(f: Flight, range: PriceRange)
    requires 0 <= range.lo <= range.hi
    requires f.price == PriceLabel(range.lo) || f.price == PriceLabel(range.hi)
    ensures PriceInRange(f, range)
  {
    if f.price == PriceLabel(range.lo) {
      PriceLabelParses(range.lo);
    } else {
      PriceLabelParses(range.hi);
    }
  }

  // ---------------------------------------------------------------------
  // The panel
  // ---------------------------------------------------------------------

  class FilterPanel {
    var priceRange: PriceRange
    var selectedAirlines: seq<string>
    var selectedStops: seq<string>
    var selectedTimes: seq<string>
    var showMobileFilters: bool

    /** No selection list ever holds an id twice. */
    ghost predicate Valid()
      reads this
    {
      NoDuplicates(selectedAirlines) && NoDuplicates(selectedStops) && NoDuplicates(selectedTimes)
    }

    /** The object handed to `onApplyFilters`. */
    function Criteria(): (c: FilterCriteria)
      reads this
      ensures c.priceRange == priceRange && c.airlines == selectedAirlines
      ensures c.stops == selectedStops && c.times == selectedTimes
    {
      FilterCriteria(priceRange, selectedAirlines, selectedStops, selectedTimes)
    }

    /** Mounted with the full range, nothing checked and the mobile panel hidden. */
    constructor ()
      ensures Valid()
      ensures Criteria() == DefaultCriteria && !showMobileFilters
    {
      priceRange := DefaultPriceRange;
      selectedAirlines := [];
      selectedStops := [];
      selectedTimes := [];
      showMobileFilters := false;
    }

    /** `handleAirlineChange`: only the airline list changes, and only at `id`. */
    method ToggleAirline(id: string)
      requires Valid()
      modifies this
      ensures Valid()
      ensures selectedAirlines == Toggle(old(selectedAirlines), id)
      ensures id in selectedAirlines <==> id !in old(selectedAirlines)
      ensures priceRange == old(priceRange) && selectedStops == old(selectedStops)
      ensures selectedTimes == old(selectedTimes) && showMobileFilters == old(showMobileFilters)
    {
      ToggleNoDuplicates(selectedAirlines, id);
      selectedAirlines := Toggle(selectedAirlines, id);
    }

    /** `handleStopChange`: only the stop list changes, and only at `id`. */
    method ToggleStop(id: string)
      requires Valid()
      modifies this
      ensures Valid()
      ensures selectedStops == Toggle(old(selectedStops), id)
      ensures id in selectedStops <==> id !in old(selectedStops)
      ensures priceRange == old(priceRange) && selectedAirlines == old(selectedAirlines)
      ensures selectedTimes == old(selectedTimes) && showMobileFilters == old(showMobileFilters)
    {
      ToggleNoDuplicates(selectedStops, id);
      selectedStops := Toggle(selectedStops, id);
    }

    /** `handleTimeChange`: only the time list changes, and only at `id`. */
    method ToggleTime(id: string)
      requires Valid()
      modifies this
      ensures Valid()
      ensures selectedTimes == Toggle(old(selectedTimes), id)
      ensures id in selectedTimes <==> id !in old(selectedTimes)
      ensures priceRange == old(priceRange) && selectedAirlines == old(selectedAirlines)
      ensures selectedStops == old(selectedStops) && showMobileFilters == old(showMobileFilters)
    {
      ToggleNoDuplicates(selectedTimes, id);
      selectedTimes := Toggle(selectedTimes, id);
    }

    /** The slider's `onValueChange`: the range is taken as given. */
    method SetPriceRange(range: PriceRange)
      requires Valid()
      modifies this
      ensures Valid()
      ensures priceRange == range
      ensures selectedAirlines == old(selectedAirlines) && selectedStops == old(selectedStops)
      ensures selectedTimes == old(selectedTimes) && showMobileFilters == old(showMobileFilters)
    {
      priceRange := range;
    }

    /** "Apply Filters": emit the current criteria; nothing changes. */
    method ApplyFilters() returns (c: FilterCriteria)
      ensures c == Criteria()
    {
      c := FilterCriteria(priceRange, selectedAirlines, selectedStops, selectedTimes);
    }

    /** "Clear Filters": back to the initial criteria, which are also emitted. */
    method ClearFilters() returns (c: FilterCriteria)
      modifies this
      ensures Valid()
      ensures c == DefaultCriteria && Criteria() == DefaultCriteria
      ensures showMobileFilters == old(showMobileFilters)
    {
      priceRange := DefaultPriceRange;
      selectedAirlines := [];
      selectedStops := [];
      selectedTimes := [];
      c := DefaultCriteria;
    }

    /** The mobile "Filters" button shows or hides the panel. */
    method ToggleMobileFilters()
      modifies this
      ensures showMobileFilters == !old(showMobileFilters)
      ensures priceRange == old(priceRange) && selectedAirlines == old(selectedAirlines)
      ensures selectedStops == old(selectedStops) && selectedTimes == old(selectedTimes)
    {
      showMobileFilters := !showMobileFilters;
    }
  }

  /** The departure-time selection is handed on but never consulted: it cannot change the shown list. */
  lemma TimeSelectionIgnored(flights: seq<Flight>, c: FilterCriteria, times: seq<string>)
    ensures HandleFilter(flights, c.(times := times)) == HandleFilter(flights, c)
  {
  }

  /** The cleared criteria restrict nothing but the price: every flight priced within [0, 2000] is shown. */
  lemma DefaultCriteriaKeepsInRange(flights: seq<Flight>)
    requires forall i :: 0 <= i < |flights| ==> PriceInRange(flights[i], DefaultPriceRange)
    ensures HandleFilter(flights, DefaultCriteria) == flights
  {
    HandleFilterIdentity(flights, DefaultCriteria);
  }
}
