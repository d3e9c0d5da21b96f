/**
 * The records shared by the flight results page, the filter panel and the
 * flight card: one bookable offer, the filter criteria the panel emits, and
 * the fixed list the results page loads.
 */
module FlightData {
  import opened Wrappers

  datatype Airline = Airline(name: string, logo: string)

  /** One layover of a connecting flight. */
  datatype StopDetail = StopDetail(airport: string, duration: string)

  /**
   * One offer. `price` is a display string such as "$320"; the numeric price
   * exists only as what can be parsed back out of it. The optional fields
   * are `None` where the object literal leaves them out.
   */
  datatype Flight = Flight(
    id: string,
    airline: Airline,
    departureTime: string,
    departureAirport: string,
    departureCode: string,
    arrivalTime: string,
    arrivalAirport: string,
    arrivalCode: string,
    duration: string,
    stops: nat,
    stopDetails: Option<seq<StopDetail>>,
    price: string,
    discount: Option<string>,
    seatsLeft: Option<int>)

  /** The two thumbs of the price slider: an inclusive range. */
  datatype PriceRange = PriceRange(lo: int, hi: int)

  /**
   * What the filter panel emits. The three lists hold option ids
   * ("delta", "nonstop", "morning", ...); `times` is collected but no
   * consumer reads it.
   */
  datatype FilterCriteria = FilterCriteria(
    priceRange: PriceRange,
    airlines: seq<string>,
    stops: seq<string>,
    times: seq<string>)

  /** The five offers the results page loads once the simulated request completes. */
  const MockFlights: seq<Flight> := [Fl001, Fl002, Fl003, Fl004, Fl005]

  const Fl001 := Flight("fl-001",
    Airline("Delta Airlines", DeltaLogo),
    "08:30", "New York (JFK)", "JFK", "11:45", "Los Angeles (LAX)", "LAX", "5h 15m",
    0, None, "$320", Some("-15%"), Some(5))

  const Fl002 := Flight("fl-002",
    Airline("United Airlines", UnitedLogo),
    "10:15", "New York (JFK)", "JFK", "14:30", "Los Angeles (LAX)", "LAX", "6h 15m",
    1, Some([StopDetail("Chicago (ORD)", "1h 20m")]), "$280", None, None)

  const Fl003 := Flight("fl-003",
    Airline("American Airlines", AmericanLogo),
    "14:20", "New York (JFK)", "JFK", "17:35", "Los Angeles (LAX)", "LAX", "5h 15m",
    0, None, "$350", None, Some(2))

  const Fl004 := Flight("fl-004",
    Airline("Emirates", EmiratesLogo),
    "19:45", "New York (JFK)", "JFK", "23:15", "Los Angeles (LAX)", "LAX", "5h 30m",
    0, None, "$410", None, None)

  const Fl005 := Flight("fl-005",
    Airline("Lufthansa", LufthansaLogo),
    "07:30", "New York (JFK)", "JFK", "13:20", "Los Angeles (LAX)", "LAX", "7h 50m",
    2, Some([StopDetail("Chicago (ORD)", "1h 20m"), StopDetail("Denver (DEN)", "1h 05m")]),
    "$260", Some("-25%"), None)


  /** Logo addresses of the five airlines. */
  const DeltaLogo := "https://encrypted-tbn0.gstatic.com/images?q=tbn:ANd9GcRQeRgMUNl9HwagMLlf_DQl2b_cgzJG-yWbyLdqFDhJDz2pZmHG0qSjPPFQEqHMevpQD6o&usqp=CAU"
  const UnitedLogo := "https://encrypted-tbn0.gstatic.com/images?q=tbn:ANd9GcSOl7mXUMKEqn0or9Ia-KSolfSDHGgQNs8B7Q&usqp=CAU"
  const AmericanLogo := "https://encrypted-tbn0.gstatic.com/images?q=tbn:ANd9GcRSmLLX9wgwOXE1KwQ4ZMCt_OXwGpbiIosMJg&usqp=CAU"
  const EmiratesLogo := "https://encrypted-tbn0.gstatic.com/images?q=tbn:ANd9GcQL-R_dJBCUzLYQF2LBXp9oZrMY-0M6tGEuAQ&usqp=CAU"
  const LufthansaLogo := "https://encrypted-tbn0.gstatic.com/images?q=tbn:ANd9GcRx8kk7RHgdFGqXe-rrZwXwaMJ5hbOoEeT_vQ&usqp=CAU"

  /** Every stop is described when a flight has any: the layover list has one entry per stop. */
  predicate StopDetailsConsistent(f: Flight)
  {
    match f.stopDetails
    case None => f.stops == 0
    case Some(ds) => |ds| == f.stops
  }

  lemma MockFlightsConsistent()
    ensures forall i :: 0 <= i < |MockFlights| ==> StopDetailsConsistent(MockFlights[i])
  {
    assert StopDetailsConsistent(Fl002) && StopDetailsConsistent(Fl005);
  }
}
