/**
 * The flight results page: the filter that reconciles the full offer list
 * with the panel's criteria, the progress counter of the simulated requests,
 * and the page's four pieces of state (`isLoading`, `flights`,
 * `filteredFlights`, `loadingProgress`).
 */
module FlightsPage {
  import opened Wrappers
  import opened Seqs
  import opened Text
  import opened FlightData

  // ---------------------------------------------------------------------
  // The three filter rules
  // ---------------------------------------------------------------------

  /** `parseInt(flight.price.replace('$', ''))`; `None` is NaN. */
  function ParsedPrice(f: Flight): (r: Option<int>)
    ensures f.price != [] && f.price[0] == '$' ==> r == ParseInt(f.price[1..])
  {
    ParseInt(RemoveFirst(f.price, '$'))
  }

  /** The price test. NaN fails both comparisons, so an unreadable price never passes. */
  predicate PriceInRange(f: Flight, range: PriceRange)
    ensures ParsedPrice(f).None? ==> !PriceInRange(f, range)
    ensures range.hi < range.lo ==> !PriceInRange(f, range)
  {
    match ParsedPrice(f)
    case None => false
    case Some(p) => range.lo <= p && p <= range.hi
  }

  /** `name.toLowerCase().replace(' ', '')`: only the first space is removed. */
  function AirlineId(name: string): (r: string)
    ensures forall i :: 0 <= i < |r| ==> !IsAsciiUpper(r[i])
    ensures ' ' !in ToLower(name) ==> r == ToLower(name)
    ensures ' ' in ToLower(name) ==> |r| == |ToLower(name)| - 1
  {
    RemoveFirstKeepsNoCapital(ToLower(name), ' ');
    RemoveFirst(ToLower(name), ' ')
  }

  predicate AirlineSelected(f: Flight, airlines: seq<string>)
  {
    AirlineId(f.airline.name) in airlines
  }

  /** The stop category a stop count belongs to: "nonstop", "1stop" or "2stops" (two or more). */
  function StopCategory(stops: nat): string
  {
    if stops == 0 then "nonstop" else if stops == 1 then "1stop" else "2stops"
  }

  /** The stop test: each selected category admits its own stop counts. */
  predicate StopSelected(f: Flight, stops: seq<string>)
    ensures StopSelected(f, stops) <==> StopCategory(f.stops) in stops
  {
    || ("nonstop" in stops && f.stops == 0)
    || ("1stop" in stops && f.stops == 1)
    || ("2stops" in stops && f.stops >= 2)
  }

  /** The three rules as the callbacks handed to `filter`. */
  function PriceTest(range: PriceRange): Flight -> bool
  {
    f => PriceInRange(f, range)
  }

  function AirlineTest(airlines: seq<string>): Flight -> bool
  {
    f => AirlineSelected(f, airlines)
  }

  function StopTest(stops: seq<string>): Flight -> bool
  {
    f => StopSelected(f, stops)
  }

  /**
   * `handleFilter`: filter by price, then by airline when any airline is
   * selected, then by stops when any stop category is selected. The input is
   * always the full list, never the previously filtered one.
   */
  function HandleFilter(flights: seq<Flight>, c: FilterCriteria): seq<Flight>
  {
    var byPrice := Keep(flights, PriceTest(c.priceRange));
    var byAirline := if |c.airlines| > 0 then Keep(byPrice, AirlineTest(c.airlines)) else byPrice;
    if |c.stops| > 0 then Keep(byAirline, StopTest(c.stops)) else byAirline
  }

  /** The criteria a single flight must meet; an empty selection list restricts nothing. */
  predicate Passes(f: Flight, c: FilterCriteria)
  {
    && PriceInRange(f, c.priceRange)
    && (|c.airlines| == 0 || AirlineSelected(f, c.airlines))
    && (|c.stops| == 0 || StopSelected(f, c.stops))
  }

  function PassesTest(c: FilterCriteria): Flight -> bool
  {
    f => Passes(f, c)
  }

  /** Price and airline rules together. */
  function PriceAndAirlineTest(c: FilterCriteria): Flight -> bool
  {
    f => PriceInRange(f, c.priceRange) && (|c.airlines| == 0 || AirlineSelected(f, c.airlines))
  }

  // ---------------------------------------------------------------------
  // What the filter guarantees
  // ---------------------------------------------------------------------

  /** The three successive filters are one filter by `Passes`. */
  lemma HandleFilterIsOnePass(flights: seq<Flight>, c: FilterCriteria)
    ensures HandleFilter(flights, c) == Keep(flights, PassesTest(c))
  {
    var byPrice := Keep(flights, PriceTest(c.priceRange));
    var byAirline := if |c.airlines| > 0 then Keep(byPrice, AirlineTest(c.airlines)) else byPrice;
    if |c.airlines| > 0 {
      KeepKeep(flights, PriceTest(c.priceRange), AirlineTest(c.airlines), PriceAndAirlineTest(c));
    } else {
      KeepCongruent(flights, PriceTest(c.priceRange), PriceAndAirlineTest(c));
    }
    assert byAirline == Keep(flights, PriceAndAirlineTest(c));
    if |c.stops| > 0 {
      KeepKeep(flights, PriceAndAirlineTest(c), StopTest(c.stops), PassesTest(c));
    } else {
      KeepCongruent(flights, PriceAndAirlineTest(c), PassesTest(c));
    }
  }

  /** The result is an order-preserving sub-list of the full list. */
  lemma HandleFilterSubsequence(flights: seq<Flight>, c: FilterCriteria)
    ensures IsSubsequence(HandleFilter(flights, c), flights)
  {
    HandleFilterIsOnePass(flights, c);
    KeepIsSubsequence(flights, PassesTest(c));
  }

  /** A flight is shown exactly when it is in the full list and meets every active criterion. */
  lemma HandleFilterMembership(flights: seq<Flight>, c: FilterCriteria, f: Flight)
    ensures f in HandleFilter(flights, c) <==> f in flights && Passes(f, c)
  {
    HandleFilterIsOnePass(flights, c);
    KeepMembership(flights, PassesTest(c));
    var r := Keep(flights, PassesTest(c));
    if f in r {
      var i :| 0 <= i < |r| && r[i] == f;
    }
    if f in flights && Passes(f, c) {
      var i :| 0 <= i < |flights| && flights[i] == f;
    }
  }

  /** Applying the same criteria to the filtered list changes nothing. */
  lemma HandleFilterIdempotent(flights: seq<Flight>, c: FilterCriteria)
    ensures HandleFilter(HandleFilter(flights, c), c) == HandleFilter(flights, c)
  {
    HandleFilterIsOnePass(flights, c);
    HandleFilterIsOnePass(HandleFilter(flights, c), c);
    KeepIdempotent(flights, PassesTest(c));
  }

  /**
   * With no airline or stop selected and a range that holds every parsed
   * price, the whole list is shown.
   */
  lemma HandleFilterIdentity(flights: seq<Flight>, c: FilterCriteria)
    requires |c.airlines| == 0 && |c.stops| == 0
    requires forall i :: 0 <= i < |flights| ==> PriceInRange(flights[i], c.priceRange)
    ensures HandleFilter(flights, c) == flights
  {
    HandleFilterIsOnePass(flights, c);
    KeepAll(flights, PassesTest(c));
  }

  /** A flight whose price does not parse is never shown, whatever the criteria. */
  lemma UnparsablePriceIsDropped(flights: seq<Flight>, c: FilterCriteria, f: Flight)
    requires ParsedPrice(f) == None
    ensures f !in HandleFilter(flights, c)
  {
    HandleFilterMembership(flights, c, f);
  }

  /** A price rendered as "$" followed by the decimal digits of `n` parses back to `n`. */
  lemma FormattedPriceParses(f: Flight, n: nat)
    requires f.price == "$" + DecimalString(n)
    ensures ParsedPrice(f) == Some(n)
  {
    assert RemoveFirst(f.price, '$') == DecimalString(n) + "";
    ParseIntDecimal(n, "");
  }

  // ---------------------------------------------------------------------
  // The loaded list, concretely
  // ---------------------------------------------------------------------

  /** The five loaded prices parse to 320, 280, 350, 410 and 260. */
  lemma MockPrices()
    ensures ParsedPrice(Fl001) == Some(320)
    ensures ParsedPrice(Fl002) == Some(280)
    ensures ParsedPrice(Fl003) == Some(350)
    ensures ParsedPrice(Fl004) == Some(410)
    ensures ParsedPrice(Fl005) == Some(260)
  {
    Fl001Price();
    Fl002Price();
    Fl003Price();
    Fl004Price();
    Fl005Price();
  }

  lemma Fl001Price()
    ensures ParsedPrice(Fl001) == Some(320)
  {
    assert Fl001.price == "$320";
    ThreeDigitPrice(Fl001, 3, 2, 0);
  }

  lemma Fl002Price()
    ensures ParsedPrice(Fl002) == Some(280)
  {
    assert Fl002.price == "$280";
    ThreeDigitPrice(Fl002, 2, 8, 0);
  }

  lemma Fl003Price()
    ensures ParsedPrice(Fl003) == Some(350)
  {
    assert Fl003.price == "$350";
    ThreeDigitPrice(Fl003, 3, 5, 0);
  }

  lemma Fl004Price()
    ensures ParsedPrice(Fl004) == Some(410)
  {
    assert Fl004.price == "$410";
    ThreeDigitPrice(Fl004, 4, 1, 0);
  }

  lemma Fl005Price()
    ensures ParsedPrice(Fl005) == Some(260)
  {
    assert Fl005.price == "$260";
    ThreeDigitPrice(Fl005, 2, 6, 0);
  }

  lemma ThreeDigitPrice(f: Flight, a: nat, b: nat, c: nat)
    requires 1 <= a <= 9 && b <= 9 && c <= 9
    requires f.price == ['$', ('0' as int + a) as char, ('0' as int + b) as char, ('0' as int + c) as char]
    ensures ParsedPrice(f) == Some(100 * a + 10 * b + c)
  {
    ThreeDigitString(a, b, c);
    FormattedPriceParses(f, 100 * a + 10 * b + c);
  }

  lemma ThreeDigitString(a: nat, b: nat, c: nat)
    requires 1 <= a <= 9 && b <= 9 && c <= 9
    ensures DecimalString(100 * a + 10 * b + c) ==
      [('0' as int + a) as char, ('0' as int + b) as char, ('0' as int + c) as char]
  {
    var n := 100 * a + 10 * b + c;
    assert n / 10 == 10 * a + b && n % 10 == c;
    assert (10 * a + b) / 10 == a && (10 * a + b) % 10 == b;
    assert DecimalString(a) == [('0' as int + a) as char];
    assert DecimalString(10 * a + b) == DecimalString(a) + [('0' as int + b) as char];
  }

  /** The normalised id is at most one character shorter than the airline's name. */
  lemma {:induction false} ToLowerLength(s: string)
    ensures |ToLower(s)| >= |s|
  {
    if s != [] {
      ToLowerLength(s[1..]);
    }
  }

  lemma AirlineIdLength(name: string)
    ensures |AirlineId(name)| >= |name| - 1
  {
    ToLowerLength(name);
  }

  /** A name longer than every selected id by two or more characters is never selected. */
  lemma LongNameMissesShortIds(f: Flight, ids: seq<string>)
    requires forall j :: 0 <= j < |ids| ==> |ids[j]| + 1 < |f.airline.name|
    ensures !AirlineSelected(f, ids)
  {
    AirlineIdLength(f.airline.name);
  }

  /** Lower-casing leaves a string without capitals, the Kelvin sign or the dotted capital I unchanged. */
  lemma {:induction false} ToLowerOfLower(s: string)
    requires forall i :: 0 <= i < |s| ==> !IsAsciiUpper(s[i]) && s[i] != '\U{212A}' && s[i] != '\U{0130}'
    ensures ToLower(s) == s
  {
    if s != [] {
      ToLowerOfLower(s[1..]);
    }
  }

  /** A capitalised word lower-cases to its lower-case spelling. */
  lemma CapitalisedWordLower(name: string, id: string)
    requires |id| > 0 && |name| == |id|
    requires IsAsciiUpper(name[0]) && id[0] == (name[0] as int + 32) as char
    requires name[1..] == id[1..]
    requires forall i :: 0 <= i < |id| ==> 'a' <= id[i] <= 'z'
    ensures ToLower(name) == id
  {
    assert name == [name[0]] + name[1..];
    ToLowerAppend([name[0]], name[1..]);
    assert ToLower([name[0]]) == [id[0]] by {
      assert [name[0]][1..] == [];
    }
    ToLowerOfLower(id[1..]);
  }

  /** A capitalised one-word name normalises to its lower-case spelling. */
  lemma CapitalisedWordId(name: string, id: string)
    requires |id| > 0 && |name| == |id|
    requires IsAsciiUpper(name[0]) && id[0] == (name[0] as int + 32) as char
    requires name[1..] == id[1..]
    requires forall i :: 0 <= i < |id| ==> 'a' <= id[i] <= 'z'
    ensures AirlineId(name) == id
  {
    CapitalisedWordLower(name, id);
  }

  /**
   * A name of two capitalised words normalises to the two lower-case words
   * run together: the one space between them is the one removed.
   */
  lemma CapitalisedTwoWordId(first: string, second: string, id1: string, id2: string)
    requires |id1| > 0 && |first| == |id1| && IsAsciiUpper(first[0])
    requires id1[0] == (first[0] as int + 32) as char && first[1..] == id1[1..]
    requires forall i :: 0 <= i < |id1| ==> 'a' <= id1[i] <= 'z'
    requires |id2| > 0 && |second| == |id2| && IsAsciiUpper(second[0])
    requires id2[0] == (second[0] as int + 32) as char && second[1..] == id2[1..]
    requires forall i :: 0 <= i < |id2| ==> 'a' <= id2[i] <= 'z'
    ensures AirlineId(first + " " + second) == id1 + id2
  {
    CapitalisedWordLower(first, id1);
    CapitalisedWordLower(second, id2);
    ToLowerAppend(first + " ", second);
    ToLowerAppend(first, " ");
    assert ToLower(" ") == " " by {
      assert " "[1..] == [];
    }
    var lower := id1 + " " + id2;
    assert ToLower(first + " " + second) == lower;
    assert lower[|id1|] == ' ';
    assert ' ' !in lower[..|id1|] by {
      assert lower[..|id1|] == id1;
    }
    assert IndexOf(lower, ' ') == |id1|;
    var r := RemoveFirst(lower, ' ');
    assert r[..|id1|] == id1;
    assert r[|id1|..] == lower[|id1| + 1..] == id2;
    assert r == r[..|id1|] + r[|id1|..];
  }

  /** The one-word names of the loaded list normalise to their panel ids. */
  lemma OneWordIds(emirates: string, lufthansa: string)
    requires emirates == "Emirates" && lufthansa == "Lufthansa"
    ensures AirlineId(emirates) == "emirates" && AirlineId(lufthansa) == "lufthansa"
  {
    CapitalisedWordId(emirates, "emirates");
    CapitalisedWordId(lufthansa, "lufthansa");
  }

  /** The ids of "Emirates" and "Lufthansa" are not among "delta", "united" and "american". */
  lemma OneWordIdsNotInMultiWordPanel(emirates: string, lufthansa: string, ids: seq<string>)
    requires emirates == "Emirates" && lufthansa == "Lufthansa"
    requires ids == ["delta", "united", "american"]
    ensures AirlineId(emirates) !in ids && AirlineId(lufthansa) !in ids
  {
    OneWordIds(emirates, lufthansa);
    assert "emirates"[0] != "american"[0];
  }

  /**
   * A non-empty selection of ids of at most 12 characters against names of
   * 14 characters or more (whose ids keep at least 13) and two flights
   * whose ids are not selected: no flight passes.
   */
  lemma MultiWordPanelVerdicts(fs: seq<Flight>, c: FilterCriteria)
    requires |fs| == 5 && |c.airlines| > 0
    requires forall j :: 0 <= j < |c.airlines| ==> |c.airlines[j]| <= 12
    requires |fs[0].airline.name| >= 14 && |fs[1].airline.name| >= 14 && |fs[2].airline.name| >= 14
    requires AirlineId(fs[3].airline.name) !in c.airlines && AirlineId(fs[4].airline.name) !in c.airlines
    ensures !Passes(fs[0], c) && !Passes(fs[1], c) && !Passes(fs[2], c)
    ensures !Passes(fs[3], c) && !Passes(fs[4], c)
  {
    LongNameFails(fs[0], c);
    LongNameFails(fs[1], c);
    LongNameFails(fs[2], c);
  }

  /** The panel's multi-word ids "delta", "united" and "american" select none of five such flights. */
  lemma MultiWordPanelScenario(fs: seq<Flight>, c: FilterCriteria)
    requires |fs| == 5 && c == FilterCriteria(PriceRange(0, 2000), ["delta", "united", "american"], [], [])
    requires |fs[0].airline.name| >= 14 && |fs[1].airline.name| >= 14 && |fs[2].airline.name| >= 14
    requires AirlineId(fs[3].airline.name) !in c.airlines && AirlineId(fs[4].airline.name) !in c.airlines
    ensures HandleFilter(fs, c) == []
  {
    assert |c.airlines[0]| == 5 && |c.airlines[1]| == 6 && |c.airlines[2]| == 8;
    MultiWordPanelVerdicts(fs, c);
    FilterKeepsNone(fs, c);
  }

  /** A flight whose name is too long for every id of a non-empty selection fails. */
  lemma LongNameFails(f: Flight, c: FilterCriteria)
    requires |c.airlines| > 0
    requires forall j :: 0 <= j < |c.airlines| ==> |c.airlines[j]| + 1 < |f.airline.name|
    ensures !Passes(f, c)
  {
    LongNameMissesShortIds(f, c.airlines);
  }

  /** Prices 320, 280, 350, 410, 260 in the window [270, 360]: the first three pass. */
  lemma PriceWindowVerdicts(fs: seq<Flight>, c: FilterCriteria)
    requires |fs| == 5 && c == FilterCriteria(PriceRange(270, 360), [], [], [])
    requires ParsedPrice(fs[0]) == Some(320) && ParsedPrice(fs[1]) == Some(280)
    requires ParsedPrice(fs[2]) == Some(350) && ParsedPrice(fs[3]) == Some(410)
    requires ParsedPrice(fs[4]) == Some(260)
    ensures Passes(fs[0], c) && Passes(fs[1], c) && Passes(fs[2], c)
    ensures !Passes(fs[3], c) && !Passes(fs[4], c)
  {
  }

  /** ... so the window shows the first three, in order. */
  lemma PriceWindowScenario(fs: seq<Flight>, c: FilterCriteria)
    requires |fs| == 5 && c == FilterCriteria(PriceRange(270, 360), [], [], [])
    requires ParsedPrice(fs[0]) == Some(320) && ParsedPrice(fs[1]) == Some(280)
    requires ParsedPrice(fs[2]) == Some(350) && ParsedPrice(fs[3]) == Some(410)
    requires ParsedPrice(fs[4]) == Some(260)
    ensures HandleFilter(fs, c) == [fs[0], fs[1], fs[2]]
  {
    PriceWindowVerdicts(fs, c);
    FilterKeepsThree(fs, c, 0, 1, 2, 3, 4);
  }

  /** Stop counts 0, 1, 0, 0, 2 with only "nonstop" selected: the direct flights pass. */
  lemma NonstopVerdicts(fs: seq<Flight>, c: FilterCriteria)
    requires |fs| == 5 && c == FilterCriteria(PriceRange(0, 2000), [], ["nonstop"], [])
    requires PriceInRange(fs[0], c.priceRange) && PriceInRange(fs[1], c.priceRange)
    requires PriceInRange(fs[2], c.priceRange) && PriceInRange(fs[3], c.priceRange)
    requires PriceInRange(fs[4], c.priceRange)
    requires fs[0].stops == 0 && fs[1].stops == 1 && fs[2].stops == 0
    requires fs[3].stops == 0 && fs[4].stops == 2
    ensures Passes(fs[0], c) && Passes(fs[2], c) && Passes(fs[3], c)
    ensures !Passes(fs[1], c) && !Passes(fs[4], c)
  {
    assert |StopCategory(fs[1].stops)| == 5 && |StopCategory(fs[4].stops)| == 6 && |"nonstop"| == 7;
  }

  /** ... so the three direct flights are shown, in order. */
  lemma NonstopScenario(fs: seq<Flight>, c: FilterCriteria)
    requires |fs| == 5 && c == FilterCriteria(PriceRange(0, 2000), [], ["nonstop"], [])
    requires PriceInRange(fs[0], c.priceRange) && PriceInRange(fs[1], c.priceRange)
    requires PriceInRange(fs[2], c.priceRange) && PriceInRange(fs[3], c.priceRange)
    requires PriceInRange(fs[4], c.priceRange)
    requires fs[0].stops == 0 && fs[1].stops == 1 && fs[2].stops == 0
    requires fs[3].stops == 0 && fs[4].stops == 2
    ensures HandleFilter(fs, c) == [fs[0], fs[2], fs[3]]
  {
    NonstopVerdicts(fs, c);
    FilterKeepsThree(fs, c, 0, 2, 3, 1, 4);
  }

  /** The loaded list in the price window [270, 360]. */
  lemma MockPriceWindow()
    ensures HandleFilter(MockFlights, FilterCriteria(PriceRange(270, 360), [], [], [])) == [Fl001, Fl002, Fl003]
  {
    var fs := MockFlights;
    assert fs[0] == Fl001 && fs[1] == Fl002 && fs[2] == Fl003 && fs[3] == Fl004 && fs[4] == Fl005;
    MockPrices();
    PriceWindowScenario(fs, FilterCriteria(PriceRange(270, 360), [], [], []));
  }

  /** The loaded list with only "nonstop" selected. */
  lemma MockNonstop()
    ensures HandleFilter(MockFlights, FilterCriteria(PriceRange(0, 2000), [], ["nonstop"], [])) == [Fl001, Fl003, Fl004]
  {
    var fs := MockFlights;
    assert fs[0] == Fl001 && fs[1] == Fl002 && fs[2] == Fl003 && fs[3] == Fl004 && fs[4] == Fl005;
    MockPrices();
    NonstopScenario(fs, FilterCriteria(PriceRange(0, 2000), [], ["nonstop"], []));
  }

  /** The loaded list with the panel's ids "delta", "united" and "american" selected. */
  lemma MockMultiWordPanel()
    ensures HandleFilter(MockFlights, FilterCriteria(PriceRange(0, 2000), ["delta", "united", "american"], [], [])) == []
  {
    var fs := MockFlights;
    assert |fs[0].airline.name| == 14 && |fs[1].airline.name| == 15 && |fs[2].airline.name| == 17;
    assert fs[3].airline.name == "Emirates" && fs[4].airline.name == "Lufthansa";
    OneWordIdsNotInMultiWordPanel(fs[3].airline.name, fs[4].airline.name, ["delta", "united", "american"]);
    MultiWordPanelScenario(fs, FilterCriteria(PriceRange(0, 2000), ["delta", "united", "american"], [], []));
  }

  /** Filtering five flights: each one is kept exactly when it passes, in the original order. */
  lemma FilterFive(fs: seq<Flight>, c: FilterCriteria)
    requires |fs| == 5
    ensures HandleFilter(fs, c) ==
      (if Passes(fs[0], c) then [fs[0]] else []) + ((if Passes(fs[1], c) then [fs[1]] else []) +
      ((if Passes(fs[2], c) then [fs[2]] else []) + ((if Passes(fs[3], c) then [fs[3]] else []) +
      (if Passes(fs[4], c) then [fs[4]] else []))))
  {
    HandleFilterIsOnePass(fs, c);
    KeepFive(fs, PassesTest(c));
  }

  /**
   * Filtering five flights of which those at `i < j < k` pass and the other
   * two, at `l` and `m`, do not: the three, in order.
   */
  lemma FilterKeepsThree(fs: seq<Flight>, c: FilterCriteria, i: nat, j: nat, k: nat, l: nat, m: nat)
    requires |fs| == 5 && i < j < k < 5 && l < m < 5
    requires l != i && l != j && l != k && m != i && m != j && m != k
    requires Passes(fs[i], c) && Passes(fs[j], c) && Passes(fs[k], c)
    requires !Passes(fs[l], c) && !Passes(fs[m], c)
    ensures HandleFilter(fs, c) == [fs[i], fs[j], fs[k]]
  {
    HandleFilterIsOnePass(fs, c);
    KeepThreeOfFive(fs, PassesTest(c), i, j, k, l, m);
  }

  /** Filtering five flights none of which passes: nothing. */
  lemma FilterKeepsNone(fs: seq<Flight>, c: FilterCriteria)
    requires |fs| == 5
    requires !Passes(fs[0], c) && !Passes(fs[1], c) && !Passes(fs[2], c)
    requires !Passes(fs[3], c) && !Passes(fs[4], c)
    ensures HandleFilter(fs, c) == []
  {
    HandleFilterIsOnePass(fs, c);
    KeepFive(fs, PassesTest(c));
  }
}
