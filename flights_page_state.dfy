/**
 * The state of the flight results page: the progress counter driven by the
 * simulated requests, the result summary line, and the four state variables
 * (`isLoading`, `flights`, `filteredFlights`, `loadingProgress`) with the
 * transitions that load, search, filter and reset them.
 */
module FlightsPageState {
  import opened Wrappers
  import opened Seqs
  import opened Text
  import opened FlightData
  import opened FlightsPage

  // ---------------------------------------------------------------------
  // The progress counter
  // ---------------------------------------------------------------------

  /** The step added per tick while the initial list loads. */
  const LoadIncrement := 5
  /** The step added per tick while a search runs. */
  const SearchIncrement := 8
  /** The largest value a tick can produce from a value below 100. */
  const MaxProgress := 107

  /** One tick of a progress interval: pinned to 100 once it has reached 100, else advanced by `inc`. */
  function ProgressStep(prev: int, inc: int): (r: int)
    ensures 0 <= inc && 0 <= prev < 100 + inc ==> 0 <= r < 100 + inc
    ensures prev >= 100 ==> r == 100
  {
    if prev >= 100 then 100 else prev + inc
  }

  /** The counter after `n` ticks from `start`. */
  function ProgressAfter(start: int, inc: int, n: nat): int
  {
    if n == 0 then start else ProgressStep(ProgressAfter(start, inc, n - 1), inc)
  }

  /**
   * Whichever interval ticks (the load interval or the search interval, in
   * any interleaving), the counter stays within [0, 107].
   */
  lemma ProgressStepBounded(prev: int, inc: int)
    requires 0 <= prev <= MaxProgress
    requires inc == LoadIncrement || inc == SearchIncrement
    ensures 0 <= ProgressStep(prev, inc) <= MaxProgress
  {
  }

  /** While every earlier value is below 100, the counter grows linearly. */
  lemma {:induction false} ProgressLinear(inc: nat, n: nat)
    requires n == 0 || (n - 1) * inc < 100
    ensures ProgressAfter(0, inc, n) == n * inc
  {
    if n > 0 {
      if n > 1 {
        assert (n - 2) * inc <= (n - 1) * inc;
      }
      ProgressLinear(inc, n - 1);
    }
  }

  /** Once the counter has reached 100, every later tick leaves it at exactly 100. */
  lemma {:induction false} ProgressPinned(start: int, inc: int, n: nat)
    requires start >= 100 && n >= 1
    ensures ProgressAfter(start, inc, n) == 100
  {
    if n > 1 {
      ProgressPinned(start, inc, n - 1);
    }
  }

  /** The search counter runs 0, 8, ..., 96, overshoots to 104 for one tick, then is pinned to 100. */
  lemma SearchOvershoot()
    ensures ProgressAfter(0, SearchIncrement, 12) == 96
    ensures ProgressAfter(0, SearchIncrement, 13) == 104
    ensures forall n :: n >= 14 ==> ProgressAfter(0, SearchIncrement, n) == 100
  {
    ProgressLinear(SearchIncrement, 13);
    ProgressLinear(SearchIncrement, 12);
    forall n | n >= 14 ensures ProgressAfter(0, SearchIncrement, n) == 100 {
      AfterOvershoot(n);
    }
  }

  lemma AfterOvershoot(n: nat)
    requires n >= 14
    ensures ProgressAfter(0, SearchIncrement, n) == 100
  {
    ProgressLinear(SearchIncrement, 13);
    ProgressAfterSplit(0, SearchIncrement, 13, n - 13);
    ProgressPinned(104, SearchIncrement, n - 13);
  }

  /** Ticking `m` then `k` times is ticking `m + k` times. */
  lemma {:induction false} ProgressAfterSplit(start: int, inc: int, m: nat, k: nat)
    ensures ProgressAfter(start, inc, m + k) == ProgressAfter(ProgressAfter(start, inc, m), inc, k)
  {
    if k > 0 {
      ProgressAfterSplit(start, inc, m, k - 1);
    }
  }

  /** The load counter never shows more than 100: it lands on 100 exactly after 20 ticks. */
  lemma LoadNeverOvershoots(n: nat)
    ensures 0 <= ProgressAfter(0, LoadIncrement, n) <= 100
    ensures n >= 20 ==> ProgressAfter(0, LoadIncrement, n) == 100
  {
    if n <= 20 {
      ProgressLinear(LoadIncrement, n);
    } else {
      ProgressLinear(LoadIncrement, 20);
      ProgressAfterSplit(0, LoadIncrement, 20, n - 20);
      ProgressPinned(100, LoadIncrement, n - 20);
    }
  }

  // ---------------------------------------------------------------------
  // The result summary line
  // ---------------------------------------------------------------------

  /** `{!isLoading && `${n} flights found`}`: nothing while loading, the count otherwise. */
  function ResultSummaryText(isLoading: bool, count: nat): (r: string)
    ensures r == "" <==> isLoading
    ensures !isLoading ==> ParseInt(r) == Some(count)
  {
    if isLoading then ""
    else
      ParseIntDecimal(count, " flights found");
      DecimalString(count) + " flights found"
  }

  // ---------------------------------------------------------------------
  // The page state
  // ---------------------------------------------------------------------

  class FlightResults {
    var isLoading: bool
    var flights: seq<Flight>
    var filteredFlights: seq<Flight>
    var loadingProgress: int

    /** The shown list is always a sub-list of the loaded one, and the counter stays in [0, 107]. */
    ghost predicate Valid()
      reads this
    {
      && IsSubsequence(filteredFlights, flights)
      && 0 <= loadingProgress <= MaxProgress
    }

    /** The page mounts loading, with both lists empty and the counter at 0. */
    constructor ()
      ensures Valid()
      ensures isLoading && flights == [] && filteredFlights == [] && loadingProgress == 0
    {
      isLoading := true;
      flights := [];
      filteredFlights := [];
      loadingProgress := 0;
    }

    /** The load timer fires: both lists become the loaded list, loading ends, the counter shows 100. */
    method CompleteInitialLoad()
      requires Valid()
      modifies this
      ensures Valid()
      ensures flights == MockFlights && filteredFlights == MockFlights
      ensures !isLoading && loadingProgress == 100
    {
      flights := MockFlights;
      filteredFlights := MockFlights;
      isLoading := false;
      loadingProgress := 100;
      SubsequenceReflexive(MockFlights);
    }

    /** A search starts: loading again, counter back to 0, neither list touched. */
    method StartSearch()
      requires Valid()
      modifies this
      ensures Valid()
      ensures isLoading && loadingProgress == 0
      ensures flights == old(flights) && filteredFlights == old(filteredFlights)
    {
      isLoading := true;
      loadingProgress := 0;
    }

    /** The search timer fires: loading ends and the counter shows 100; neither list is touched. */
    method CompleteSearch()
      requires Valid()
      modifies this
      ensures Valid()
      ensures !isLoading && loadingProgress == 100
      ensures flights == old(flights) && filteredFlights == old(filteredFlights)
    {
      isLoading := false;
      loadingProgress := 100;
    }

    /** One tick of the load interval (`inc` 5) or the search interval (`inc` 8). */
    method TickProgress(inc: int)
      requires Valid()
      requires inc == LoadIncrement || inc == SearchIncrement
      modifies this
      ensures Valid()
      ensures loadingProgress == ProgressStep(old(loadingProgress), inc)
      ensures isLoading == old(isLoading)
      ensures flights == old(flights) && filteredFlights == old(filteredFlights)
    {
      ProgressStepBounded(loadingProgress, inc);
      loadingProgress := ProgressStep(loadingProgress, inc);
    }

    /** `handleFilter`: the shown list is recomputed from the full list, never from the shown one. */
    method ApplyFilters(c: FilterCriteria)
      requires Valid()
      modifies this
      ensures Valid()
      ensures filteredFlights == HandleFilter(flights, c)
      ensures flights == old(flights) && isLoading == old(isLoading)
      ensures loadingProgress == old(loadingProgress)
    {
      HandleFilterSubsequence(flights, c);
      filteredFlights := HandleFilter(flights, c);
    }

    /** "Reset Filters": the shown list becomes the full list again. */
    method ResetFilters()
      requires Valid()
      modifies this
      ensures Valid()
      ensures filteredFlights == flights
      ensures flights == old(flights) && isLoading == old(isLoading)
      ensures loadingProgress == old(loadingProgress)
    {
      SubsequenceReflexive(flights);
      filteredFlights := flights;
    }

    /** The summary line under the "Flight Results" heading. */
    function ResultSummary(): (r: string)
      reads this
      ensures r == "" <==> isLoading
      ensures !isLoading ==> ParseInt(r) == Some(|filteredFlights|)
    {
      ResultSummaryText(isLoading, |filteredFlights|)
    }
  }
}
