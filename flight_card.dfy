/**
 * The flight card: the display rules for one offer (stop label, discount
 * badge, low-seat warning, numbered stopovers) and the card's only state,
 * the expanded/collapsed details section.
 */
module FlightCard {
  import opened Wrappers
  import opened Text
  import opened FlightData

  /** What a `{cond && <element>}` slot puts on the page: nothing, or some text. */
  datatype Rendered = Nothing | Shown(text: string)

  // ---------------------------------------------------------------------
  // The stop label
  // ---------------------------------------------------------------------

  /** "Direct", "1 Stop", or `${n} Stops`. */
  function StopLabel(stops: nat): string
  {
    if stops == 0 then "Direct"
    else if stops == 1 then "1 Stop"
    else DecimalString(stops) + " Stops"
  }

  /**
   * A flight with stops shows its stop count, which reads back as a number,
   * in the singular for one stop and the plural otherwise; a direct flight
   * shows "Direct", which does not start with a digit.
   */
  lemma StopLabelReadsBack(stops: nat)
    ensures stops == 0 ==> StopLabel(stops) == "Direct" && !IsDecimalDigit(StopLabel(stops)[0])
    ensures stops >= 1 ==> IsDecimalDigit(StopLabel(stops)[0]) && ParseInt(StopLabel(stops)) == Some(stops)
    ensures stops >= 1 ==> (StopLabel(stops)[|StopLabel(stops)| - 1] == 's' <==> stops >= 2)
  {
    if stops == 1 {
      assert StopLabel(1) == DecimalString(1) + " Stop";
      ParseIntDecimal(1, " Stop");
    } else if stops >= 2 {
      ParseIntDecimal(stops, " Stops");
    }
  }

  /** Different stop counts never share a label. */
  lemma StopLabelInjective(m: nat, n: nat)
    requires m != n
    ensures StopLabel(m) != StopLabel(n)
  {
    StopLabelReadsBack(m);
    StopLabelReadsBack(n);
  }

  // ---------------------------------------------------------------------
  // Badges
  // ---------------------------------------------------------------------

  /** `{flight.discount && <Badge>…}`: the empty string renders nothing. */
  function DiscountBadge(discount: Option<string>): (r: Rendered)
    ensures r.Shown? <==> discount.Some? && discount.value != ""
    ensures r.Shown? ==> r.text == discount.value
  {
    match discount
    case Some(d) => if d != "" then Shown(d) else Nothing
    case None => Nothing
  }

  /** The text of the low-seat warning. */
  function SeatsWarning(n: int): string
  {
    "Only " + IntString(n) + " seats left!"
  }

  /**
   * `{flight.seatsLeft && flight.seatsLeft < 10 && <span>…}` as written: for
   * a seat count of 0 the expression's value is the number 0 itself, which
   * React renders as the text "0".
   */
  function SeatsBadgeAsWritten(seatsLeft: Option<int>): (r: Rendered)
    ensures r.Shown? <==> seatsLeft.Some? && seatsLeft.value < 10
    ensures r.Shown? && seatsLeft.value != 0 ==> r.text == SeatsWarning(seatsLeft.value)
  {
    match seatsLeft
    case None => Nothing
    case Some(n) =>
      if n == 0 then Shown("0")
      else if n < 10 then Shown(SeatsWarning(n))
      else Nothing
  }

  /** A sold-out flight gets a stray "0" on its card instead of no badge. */
  lemma SoldOutShowsStrayZero()
    ensures SeatsBadgeAsWritten(Some(0)) == Shown("0")
    ensures SeatsBadgeAsWritten(Some(0)) != Nothing
  {
  }

  /** The low-seat condition: a seat count is known, is not zero and is below 10. */
  predicate LowSeats(seatsLeft: Option<int>)
  {
    seatsLeft.Some? && seatsLeft.value != 0 && seatsLeft.value < 10
  }

  /** The badge as intended: the warning under the low-seat condition, and nothing at all otherwise. */
  function SeatsBadge(seatsLeft: Option<int>): (r: Rendered)
    ensures r.Shown? <==> LowSeats(seatsLeft)
    ensures r.Shown? ==> r.text == SeatsWarning(seatsLeft.value)
  {
    if LowSeats(seatsLeft) then Shown(SeatsWarning(seatsLeft.value)) else Nothing
  }

  /** The corrected badge agrees with the written one everywhere except at a seat count of 0. */
  lemma SeatsBadgeDiffersOnlyAtZero(seatsLeft: Option<int>)
    ensures SeatsBadge(seatsLeft) == SeatsBadgeAsWritten(seatsLeft) <==> seatsLeft != Some(0)
  {
  }

  /** The warning states the seat count: the number after "Only " reads back as it. */
  lemma SeatsWarningStatesCount(n: nat)
    ensures SeatsWarning(n)[..5] == "Only "
    ensures ParseInt(SeatsWarning(n)[5..]) == Some(n)
  {
    var d, tail := DecimalString(n), " seats left!";
    var w := SeatsWarning(n);
    assert w == "Only " + (d + tail);
    assert w[5..] == d + tail;
    ParseIntDecimal(n, tail);
  }

  // ---------------------------------------------------------------------
  // Stopovers
  // ---------------------------------------------------------------------

  /** One row of the stopover list: its number, the airport and the layover time. */
  datatype StopoverRow = StopoverRow(number: nat, airport: string, layover: string)

  /** The stopover section: present only for a non-empty list, its rows numbered from 1 in list order. */
  function StopoverRows(details: Option<seq<StopDetail>>): (r: Option<seq<StopoverRow>>)
    ensures r.Some? <==> details.Some? && |details.value| > 0
    ensures r.Some? ==> |r.value| == |details.value|
    ensures r.Some? ==> forall i :: 0 <= i < |r.value| ==>
      r.value[i] == StopoverRow(i + 1, details.value[i].airport, details.value[i].duration)
  {
    match details
    case None => None
    case Some(ds) =>
      if |ds| == 0 then None
      else Some(seq(|ds|, i requires 0 <= i < |ds| => StopoverRow(i + 1, ds[i].airport, ds[i].duration)))
  }

  /** A flight whose layover list matches its stop count shows one numbered row per stop, 1 to n. */
  lemma StopoversMatchStops(f: Flight)
    requires StopDetailsConsistent(f)
    ensures StopoverRows(f.stopDetails).Some? <==> f.stops > 0
    ensures f.stops > 0 ==> |StopoverRows(f.stopDetails).value| == f.stops
    ensures f.stops > 0 ==> StopoverRows(f.stopDetails).value[f.stops - 1].number == f.stops
  {
  }

  // ---------------------------------------------------------------------
  // The card
  // ---------------------------------------------------------------------

  /** The details button's label. */
  function DetailsButtonLabel(showDetails: bool): (r: string)
    ensures r == "Hide details" <==> showDetails
    ensures r == "View details" <==> !showDetails
  {
    if showDetails then "Hide details" else "View details"
  }

  class FlightCardState {
    const flight: Flight
    var showDetails: bool

    /** A card starts collapsed. */
    constructor (f: Flight)
      ensures flight == f && !showDetails
    {
      flight := f;
      showDetails := false;
    }

    /** The details button flips the section. */
    method ToggleDetails()
      modifies this
      ensures showDetails == !old(showDetails)
      ensures DetailsButtonLabel(showDetails) != DetailsButtonLabel(old(showDetails))
    {
      showDetails := !showDetails;
    }

    /** "Select": the value handed to `onSelect` is the flight's id. */
    method Select() returns (selected: string)
      ensures selected == flight.id
    {
      selected := flight.id;
    }
  }
}
