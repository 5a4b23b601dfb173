/**
 * index_booking_from_text (app.py:442-503): turn a booking text into stored
 * flight and hotel rows and calendar-event requests.
 *
 * The language-model extraction is an input (`Extraction`, empty when no
 * model client is configured). The heuristic route comes from the
 * recognisers in `Heuristic`, fed with the text's pattern matches. Row ids,
 * which the code draws from uuid4, are consecutive numbers here, and the
 * creation time is the parameter `now`.
 */
module Indexer {
  import opened Wrappers
  import opened Text
  import opened DictKeys
  import opened Heuristic

  /** One flight object as the extraction (or the heuristic) proposes it; `None` is a missing or null key. */
  datatype FlightCandidate = FlightCandidate(
    origin: Option<string>, dest: Option<string>,
    departDate: Option<string>, departTime: Option<string>,
    arrivalDate: Option<string>, arrivalTime: Option<string>,
    airline: Option<string>, flightNumber: Option<string>, pnr: Option<string>)

  /** One hotel object as the extraction proposes it. */
  datatype HotelCandidate = HotelCandidate(
    hotelName: Option<string>, city: Option<string>,
    checkinDate: Option<string>, checkoutDate: Option<string>, address: Option<string>)

  /** The extraction's two lists; a `None` entry is a falsy element (null or an empty object). */
  datatype Extraction = Extraction(flights: seq<Option<FlightCandidate>>, hotels: seq<Option<HotelCandidate>>)

  /** What the three recognisers see of the text: each pattern's matches and the lower-cased text. */
  datatype TextMatches = TextMatches(
    ymd: seq<DateMatch>, dmy: seq<DateMatch>, clock: seq<TimeMatch>,
    iatas: seq<string>, lowered: string)

  datatype FlightRow = FlightRow(
    id: nat, waid: string, flight: FlightCandidate,
    sourceFileId: Option<string>, rawExcerpt: string, createdAt: string)

  datatype HotelRow = HotelRow(
    id: nat, waid: string, hotel: HotelCandidate,
    sourceFileId: Option<string>, rawExcerpt: string, createdAt: string)

  /** One call of add_calendar_event, recorded by the row it was made for; `Call` gives its arguments. */
  datatype CalendarRequest =
    | FlightEvent(waid: string, flight: FlightCandidate)
    | HotelEvent(waid: string, hotel: HotelCandidate)

  /** The arguments of add_calendar_event; `end == None` means the event ends when it starts. */
  datatype CalendarCall = CalendarCall(
    waid: string, summary: string, description: string,
    start: string, end: Option<string>, allDay: bool)

  // ---------------------------------------------------------------------
  // The heuristic fallback flight
  // ---------------------------------------------------------------------

  function First(s: seq<string>): (r: Option<string>)
    ensures r.Some? <==> |s| > 0
    ensures r.Some? ==> r.value == s[0]
  {
    if |s| == 0 then None else Some(s[0])
  }

  /** The dates parse_dates reports for these matches. */
  function FoundDates(m: TextMatches): seq<string> {
    Dedup(ValidDates(m.ymd, YearFirst) + ValidDates(m.dmy, DayFirst))
  }

  /** The times parse_times reports for these matches. */
  function FoundTimes(m: TextMatches): seq<string> {
    Dedup(ValidTimes(m.clock))
  }

  /** The single flight built from the recognisers, present only when a destination was found. */
  function NaiveFlight(a: Airports, dates: seq<string>, times: seq<string>): (r: Option<FlightCandidate>)
    ensures r.Some? <==> Truthy(a.dest)
    ensures r.Some? ==> (r.value.origin == a.origin && r.value.dest == a.dest
                         && r.value.departDate == First(dates) && r.value.departTime == First(times))
    ensures r.Some? ==> r.value.airline.None? && r.value.flightNumber.None? && r.value.pnr.None?
  {
    if Truthy(a.dest) then
      Some(FlightCandidate(a.origin, a.dest, First(dates), First(times), None, None, None, None, None))
    else None
  }

  /** The row-level gate of the flight loop: present, with a destination and a departure date. */
  predicate FlightQualifies(f: Option<FlightCandidate>) {
    f.Some? && Truthy(f.value.dest) && Truthy(f.value.departDate)
  }

  predicate HotelQualifies(h: Option<HotelCandidate>) {
    h.Some? && Truthy(h.value.checkinDate)
  }

  /** The extraction's flights win; the heuristic flight is used only when there are none and it qualifies. */
  function ChooseFlights(ai: seq<Option<FlightCandidate>>, naive: Option<FlightCandidate>): (r: seq<Option<FlightCandidate>>)
    ensures |ai| > 0 ==> r == ai
    ensures |ai| == 0 ==> (r == [naive] <==> FlightQualifies(naive)) && (r == [] <==> !FlightQualifies(naive))
  {
    if |ai| == 0 && FlightQualifies(naive) then [naive] else ai
  }

  /** The candidates the flight loop stores, in order. */
  function KeptFlights(fs: seq<Option<FlightCandidate>>): (r: seq<FlightCandidate>)
    ensures |r| <= |fs|
    ensures forall i :: 0 <= i < |r| ==> Truthy(r[i].dest) && Truthy(r[i].departDate)
  {
    KeptFlightsIn(fs, |fs|)
  }

  /** What the flight loop has stored after its first `n` passes. */
  function KeptFlightsIn(fs: seq<Option<FlightCandidate>>, n: nat): (r: seq<FlightCandidate>)
    requires n <= |fs|
    ensures |r| <= n
    ensures forall i :: 0 <= i < |r| ==> Truthy(r[i].dest) && Truthy(r[i].departDate)
  {
    if n == 0 then []
    else
      var prior := KeptFlightsIn(fs, n - 1);
      if FlightQualifies(fs[n - 1]) then prior + [fs[n - 1].value] else prior
  }

  /** The candidates the hotel loop stores, in order. */
  function KeptHotels(hs: seq<Option<HotelCandidate>>): (r: seq<HotelCandidate>)
    ensures |r| <= |hs|
    ensures forall i :: 0 <= i < |r| ==> Truthy(r[i].checkinDate)
  {
    KeptHotelsIn(hs, |hs|)
  }

  /** What the hotel loop has stored after its first `n` passes. */
  function KeptHotelsIn(hs: seq<Option<HotelCandidate>>, n: nat): (r: seq<HotelCandidate>)
    requires n <= |hs|
    ensures |r| <= n
    ensures forall i :: 0 <= i < |r| ==> Truthy(r[i].checkinDate)
  {
    if n == 0 then []
    else
      var prior := KeptHotelsIn(hs, n - 1);
      if HotelQualifies(hs[n - 1]) then prior + [hs[n - 1].value] else prior
  }

  /** Each qualifying candidate is stored, and everything stored was a qualifying candidate. */
  lemma KeptFlightsExactly(fs: seq<Option<FlightCandidate>>, f: FlightCandidate)
    ensures f in KeptFlights(fs) <==> Some(f) in fs && FlightQualifies(Some(f))
  {
    KeptFlightsInExactly(fs, |fs|, f);
    assert fs[..|fs|] == fs;
  }

  lemma {:induction false} KeptFlightsInExactly(fs: seq<Option<FlightCandidate>>, n: nat, f: FlightCandidate)
    requires n <= |fs|
    ensures f in KeptFlightsIn(fs, n) <==> Some(f) in fs[..n] && FlightQualifies(Some(f))
  {
    if n > 0 {
      KeptFlightsInExactly(fs, n - 1, f);
      assert fs[..n] == fs[..n - 1] + [fs[n - 1]];
    }
  }

  lemma KeptHotelsExactly(hs: seq<Option<HotelCandidate>>, h: HotelCandidate)
    ensures h in KeptHotels(hs) <==> Some(h) in hs && HotelQualifies(Some(h))
  {
    KeptHotelsInExactly(hs, |hs|, h);
    assert hs[..|hs|] == hs;
  }

  lemma {:induction false} KeptHotelsInExactly(hs: seq<Option<HotelCandidate>>, n: nat, h: HotelCandidate)
    requires n <= |hs|
    ensures h in KeptHotelsIn(hs, n) <==> Some(h) in hs[..n] && HotelQualifies(Some(h))
  {
    if n > 0 {
      KeptHotelsInExactly(hs, n - 1, h);
      assert hs[..n] == hs[..n - 1] + [hs[n - 1]];
    }
  }

  /** The flights index_booking_from_text stores for a text. */
  function IndexedFlights(m: TextMatches, ai: Extraction): seq<FlightCandidate> {
    var naive := NaiveFlight(DetectedAirports(m.iatas, m.lowered), FoundDates(m), FoundTimes(m));
    KeptFlights(ChooseFlights(ai.flights, naive))
  }

  /**
   * A non-empty extraction list suppresses the heuristic flight, even when
   * none of its entries qualifies.
   */
  lemma ExtractionSuppressesFallback(m: TextMatches, ai: Extraction)
    requires |ai.flights| > 0
    ensures IndexedFlights(m, ai) == KeptFlights(ai.flights)
  {
  }

  /**
   * With no extracted flights, at most one flight is stored: exactly when
   * a destination and at least one calendar date were recognised, and it is
   * the recognised route departing on the first date found.
   */
  lemma FallbackFlight(m: TextMatches, ai: Extraction)
    requires |ai.flights| == 0
    ensures var a := DetectedAirports(m.iatas, m.lowered);
      var r := IndexedFlights(m, ai);
      && |r| <= 1
      && (|r| == 1 <==> Truthy(a.dest) && |ValidDates(m.ymd, YearFirst) + ValidDates(m.dmy, DayFirst)| > 0)
      && (|r| == 1 ==> r[0].origin == a.origin && r[0].dest == a.dest
                       && r[0].departDate == Some(FoundDates(m)[0]) && IsIsoDate(FoundDates(m)[0]))
  {
    var all := ValidDates(m.ymd, YearFirst) + ValidDates(m.dmy, DayFirst);
    var dates := FoundDates(m);
    if |all| > 0 {
      assert all[0] in dates;
    }
    if |dates| > 0 {
      var j :| 0 <= j < |all| && all[j] == dates[0];
      assert IsIsoDate(dates[0]);
      assert dates[0] != "";
    }
    var naive := NaiveFlight(DetectedAirports(m.iatas, m.lowered), dates, FoundTimes(m));
    var chosen := ChooseFlights(ai.flights, naive);
    if FlightQualifies(naive) {
      assert chosen == [naive];
      assert chosen[..0] == [];
    }
  }

  // ---------------------------------------------------------------------
  // Rows and calendar requests
  // ---------------------------------------------------------------------

  const Plane: string := "\U{2708}\U{FE0F} "
  const Arrow: string := "\U{2192}"
  const HotelPrefix: string := "\U{1F3E8} Check-in: "

  function FlightSummary(f: FlightCandidate): string {
    Strip(Plane + OrEmpty(f.origin) + Arrow + OrEmpty(f.dest) + " " + OrEmpty(f.flightNumber))
  }

  function FlightDescription(f: FlightCandidate): string {
    "Airline: " + OrEmpty(f.airline) + "\nPNR: " + OrEmpty(f.pnr)
  }

  /** A request made for a stored row: a flight with a departure date, a hotel with a check-in date. */
  predicate IsRowRequest(r: CalendarRequest) {
    match r
    case FlightEvent(_, f) => Truthy(f.departDate)
    case HotelEvent(_, h) => Truthy(h.checkinDate)
  }

  /**
   * The arguments passed: a timed event at the flight's departure, or an
   * all-day event from check-in to check-out (or to check-in again).
   * `isDecimal` is the class of characters `\d` matches (see `ToDtIso`).
   */
  function Call(r: CalendarRequest, isDecimal: char -> bool): CalendarCall
    requires IsRowRequest(r)
  {
    match r
    case FlightEvent(waid, f) =>
      CalendarCall(waid, FlightSummary(f), FlightDescription(f), ToDtIso(f.departDate, f.departTime, isDecimal).value, None, false)
    case HotelEvent(waid, h) =>
      CalendarCall(waid, HotelPrefix + OrEmpty(h.hotelName),
        "City: " + OrEmpty(h.city) + "\nAddress: " + OrEmpty(h.address),
        h.checkinDate.value, if Truthy(h.checkoutDate) then h.checkoutDate else h.checkinDate, true)
  }

  /** A flight's event starts on its departure date, at its departure time when that is "HH:MM", else at nine. */
  lemma FlightCallStart(waid: string, f: FlightCandidate, isDecimal: char -> bool)
    requires Truthy(f.departDate)
    ensures var c := Call(FlightEvent(waid, f), isDecimal);
      && !c.allDay && c.end.None?
      && f.departDate.value + "T" <= c.start
      && (Truthy(f.departTime) && IsTwoDigitClock(f.departTime.value, isDecimal) ==> c.start == f.departDate.value + "T" + f.departTime.value + ":00")
      && (!Truthy(f.departTime) || !IsTwoDigitClock(f.departTime.value, isDecimal) ==> c.start == f.departDate.value + "T09:00:00")
  {
  }

  /** A hotel's event is all-day, from check-in to check-out, or on the check-in day alone. */
  lemma HotelCallSpan(waid: string, h: HotelCandidate, isDecimal: char -> bool)
    requires Truthy(h.checkinDate)
    ensures var c := Call(HotelEvent(waid, h), isDecimal);
      && c.allDay && c.start == h.checkinDate.value && c.end.Some? && c.end.value != ""
      && (Truthy(h.checkoutDate) ==> c.end == h.checkoutDate)
      && (!Truthy(h.checkoutDate) ==> c.end == h.checkinDate)
  {
  }

  /** The summary always starts with the plane sign, the origin and the arrow. */
  lemma FlightSummaryStartsWithRoute(f: FlightCandidate)
    ensures Plane + OrEmpty(f.origin) + Arrow <= FlightSummary(f)
  {
    var head := Plane + OrEmpty(f.origin) + Arrow;
    var rest := OrEmpty(f.dest) + " " + OrEmpty(f.flightNumber);
    assert Plane + OrEmpty(f.origin) + Arrow + OrEmpty(f.dest) + " " + OrEmpty(f.flightNumber) == head + rest;
    StripKeepsHead(head, rest);
  }

  /** The summary shows the whole route when the destination does not end in white space. */
  lemma FlightSummaryShowsRoute(f: FlightCandidate)
    requires Truthy(f.dest) && !IsSpace(f.dest.value[|f.dest.value| - 1])
    ensures Contains(FlightSummary(f), OrEmpty(f.origin) + Arrow + f.dest.value)
  {
    var route := OrEmpty(f.origin) + Arrow + f.dest.value;
    var head := Plane + route;
    var rest := " " + OrEmpty(f.flightNumber);
    assert Plane + OrEmpty(f.origin) + Arrow + OrEmpty(f.dest) + " " + OrEmpty(f.flightNumber) == head + rest;
    StripKeepsHead(head, rest);
    var s := FlightSummary(f);
    assert s[..|head|] == head;
    assert s[|Plane|..|Plane| + |route|] == route;
    ContainsAt(s, route, |Plane|);
  }

  /** `table` after inserting one row per flight, in order, with ids counting up from `id0`. */
  function AddFlightRows(table: seq<FlightRow>, waid: string, fs: seq<FlightCandidate>, id0: nat,
                         src: Option<string>, raw: string, now: string): (r: seq<FlightRow>)
    ensures |r| == |table| + |fs|
  {
    if |fs| == 0 then table
    else AddFlightRows(table, waid, fs[..|fs| - 1], id0, src, raw, now) + [FlightRow(id0 + |fs| - 1, waid, fs[|fs| - 1], src, raw, now)]
  }

  function AddHotelRows(table: seq<HotelRow>, waid: string, hs: seq<HotelCandidate>, id0: nat,
                        src: Option<string>, raw: string, now: string): (r: seq<HotelRow>)
    ensures |r| == |table| + |hs|
  {
    if |hs| == 0 then table
    else AddHotelRows(table, waid, hs[..|hs| - 1], id0, src, raw, now) + [HotelRow(id0 + |hs| - 1, waid, hs[|hs| - 1], src, raw, now)]
  }

  /** `log` after one timed-event request per flight. */
  function AddFlightEvents(log: seq<CalendarRequest>, waid: string, fs: seq<FlightCandidate>): (r: seq<CalendarRequest>)
    ensures |r| == |log| + |fs|
  {
    if |fs| == 0 then log else AddFlightEvents(log, waid, fs[..|fs| - 1]) + [FlightEvent(waid, fs[|fs| - 1])]
  }

  /** `log` after one all-day-event request per hotel. */
  function AddHotelEvents(log: seq<CalendarRequest>, waid: string, hs: seq<HotelCandidate>): (r: seq<CalendarRequest>)
    ensures |r| == |log| + |hs|
  {
    if |hs| == 0 then log else AddHotelEvents(log, waid, hs[..|hs| - 1]) + [HotelEvent(waid, hs[|hs| - 1])]
  }

  /** Indexing only appends: the old rows stay in place and row k of the run stores candidate k with id `id0 + k`. */
  lemma {:induction false} AddFlightRowsAppends(table: seq<FlightRow>, waid: string, fs: seq<FlightCandidate>, id0: nat,
                                                src: Option<string>, raw: string, now: string)
    ensures var r := AddFlightRows(table, waid, fs, id0, src, raw, now);
      && r[..|table|] == table
      && forall k :: 0 <= k < |fs| ==> r[|table| + k] == FlightRow(id0 + k, waid, fs[k], src, raw, now)
  {
    if |fs| > 0 {
      var init := fs[..|fs| - 1];
      AddFlightRowsAppends(table, waid, init, id0, src, raw, now);
      var prior := AddFlightRows(table, waid, init, id0, src, raw, now);
      var r := AddFlightRows(table, waid, fs, id0, src, raw, now);
      assert r == prior + [FlightRow(id0 + |fs| - 1, waid, fs[|fs| - 1], src, raw, now)];
      assert r[..|table|] == prior[..|table|];
      forall k | 0 <= k < |fs|
        ensures r[|table| + k] == FlightRow(id0 + k, waid, fs[k], src, raw, now)
      {
        if k < |fs| - 1 {
          assert r[|table| + k] == prior[|table| + k];
          assert init[k] == fs[k];
        }
      }
    }
  }

  lemma {:induction false} AddHotelRowsAppends(table: seq<HotelRow>, waid: string, hs: seq<HotelCandidate>, id0: nat,
                                               src: Option<string>, raw: string, now: string)
    ensures var r := AddHotelRows(table, waid, hs, id0, src, raw, now);
      && r[..|table|] == table
      && forall k :: 0 <= k < |hs| ==> r[|table| + k] == HotelRow(id0 + k, waid, hs[k], src, raw, now)
  {
    if |hs| > 0 {
      var init := hs[..|hs| - 1];
      AddHotelRowsAppends(table, waid, init, id0, src, raw, now);
      var prior := AddHotelRows(table, waid, init, id0, src, raw, now);
      var r := AddHotelRows(table, waid, hs, id0, src, raw, now);
      assert r == prior + [HotelRow(id0 + |hs| - 1, waid, hs[|hs| - 1], src, raw, now)];
      assert r[..|table|] == prior[..|table|];
      forall k | 0 <= k < |hs|
        ensures r[|table| + k] == HotelRow(id0 + k, waid, hs[k], src, raw, now)
      {
        if k < |hs| - 1 {
          assert r[|table| + k] == prior[|table| + k];
          assert init[k] == hs[k];
        }
      }
    }
  }

  /**
   * The flights table is well formed below `next`: every row passed the
   * loop's gate, and ids increase along the table and stay below `next`.
   */
  predicate FlightTableOk(rows: seq<FlightRow>, next: nat) {
    |rows| == 0 ||
    (var last := rows[|rows| - 1];
     Truthy(last.flight.dest) && Truthy(last.flight.departDate) && last.id < next
     && FlightTableOk(rows[..|rows| - 1], last.id))
  }

  predicate HotelTableOk(rows: seq<HotelRow>, next: nat) {
    |rows| == 0 ||
    (var last := rows[|rows| - 1];
     Truthy(last.hotel.checkinDate) && last.id < next
     && HotelTableOk(rows[..|rows| - 1], last.id))
  }

  /** What a well-formed flights table guarantees row by row: the gate held, and ids are unique and ordered. */
  lemma {:induction false} FlightTableOkRows(rows: seq<FlightRow>, next: nat)
    requires FlightTableOk(rows, next)
    ensures forall i :: 0 <= i < |rows| ==> Truthy(rows[i].flight.dest) && Truthy(rows[i].flight.departDate) && rows[i].id < next
    ensures forall i, j :: 0 <= i < j < |rows| ==> rows[i].id < rows[j].id
  {
    if |rows| > 0 {
      var init := rows[..|rows| - 1];
      FlightTableOkRows(init, rows[|rows| - 1].id);
    }
  }

  lemma {:induction false} HotelTableOkRows(rows: seq<HotelRow>, next: nat)
    requires HotelTableOk(rows, next)
    ensures forall i :: 0 <= i < |rows| ==> Truthy(rows[i].hotel.checkinDate) && rows[i].id < next
    ensures forall i, j :: 0 <= i < j < |rows| ==> rows[i].id < rows[j].id
  {
    if |rows| > 0 {
      var init := rows[..|rows| - 1];
      HotelTableOkRows(init, rows[|rows| - 1].id);
    }
  }

  /** Appending the rows of one indexing run keeps the flights table well formed. */
  lemma {:induction false} AddFlightRowsKeepsTableOk(rows: seq<FlightRow>, waid: string, fs: seq<FlightCandidate>,
                                                     id0: nat, src: Option<string>, raw: string, now: string)
    requires FlightTableOk(rows, id0)
    requires forall i :: 0 <= i < |fs| ==> Truthy(fs[i].dest) && Truthy(fs[i].departDate)
    ensures FlightTableOk(AddFlightRows(rows, waid, fs, id0, src, raw, now), id0 + |fs|)
  {
    if |fs| > 0 {
      AddFlightRowsKeepsTableOk(rows, waid, fs[..|fs| - 1], id0, src, raw, now);
    }
  }

  lemma {:induction false} AddHotelRowsKeepsTableOk(rows: seq<HotelRow>, waid: string, hs: seq<HotelCandidate>,
                                                    id0: nat, src: Option<string>, raw: string, now: string)
    requires HotelTableOk(rows, id0)
    requires forall i :: 0 <= i < |hs| ==> Truthy(hs[i].checkinDate)
    ensures HotelTableOk(AddHotelRows(rows, waid, hs, id0, src, raw, now), id0 + |hs|)
  {
    if |hs| > 0 {
      AddHotelRowsKeepsTableOk(rows, waid, hs[..|hs| - 1], id0, src, raw, now);
    }
  }

  lemma FlightTableGrows(rows: seq<FlightRow>, next: nat, next2: nat)
    requires FlightTableOk(rows, next) && next <= next2
    ensures FlightTableOk(rows, next2)
  {
  }

  lemma HotelTableGrows(rows: seq<HotelRow>, next: nat, next2: nat)
    requires HotelTableOk(rows, next) && next <= next2
    ensures HotelTableOk(rows, next2)
  {
  }

  /** The flight pass of one indexing run keeps both tables well formed below the new counter. */
  lemma FlightPassKeepsTablesOk(fr: seq<FlightRow>, hr: seq<HotelRow>, waid: string, fs: seq<FlightCandidate>,
                                id0: nat, src: Option<string>, raw: string, now: string)
    requires FlightTableOk(fr, id0) && HotelTableOk(hr, id0)
    requires forall i :: 0 <= i < |fs| ==> Truthy(fs[i].dest) && Truthy(fs[i].departDate)
    ensures FlightTableOk(AddFlightRows(fr, waid, fs, id0, src, raw, now), id0 + |fs|)
    ensures HotelTableOk(hr, id0 + |fs|)
  {
    AddFlightRowsKeepsTableOk(fr, waid, fs, id0, src, raw, now);
    HotelTableGrows(hr, id0, id0 + |fs|);
  }

  /** The hotel pass of one indexing run keeps both tables well formed below the new counter. */
  lemma HotelPassKeepsTablesOk(fr: seq<FlightRow>, hr: seq<HotelRow>, waid: string, hs: seq<HotelCandidate>,
                               id0: nat, src: Option<string>, raw: string, now: string)
    requires FlightTableOk(fr, id0) && HotelTableOk(hr, id0)
    requires forall i :: 0 <= i < |hs| ==> Truthy(hs[i].checkinDate)
    ensures FlightTableOk(fr, id0 + |hs|)
    ensures HotelTableOk(AddHotelRows(hr, waid, hs, id0, src, raw, now), id0 + |hs|)
  {
    AddHotelRowsKeepsTableOk(hr, waid, hs, id0, src, raw, now);
    FlightTableGrows(fr, id0, id0 + |hs|);
  }

  /** The flights index_booking_from_text iterates over: the extraction's, or else the heuristic one. */
  method CandidateFlights(m: TextMatches, ai: Extraction) returns (chosen: seq<Option<FlightCandidate>>)
    ensures chosen == ChooseFlights(ai.flights, NaiveFlight(DetectedAirports(m.iatas, m.lowered), FoundDates(m), FoundTimes(m)))
    ensures KeptFlights(chosen) == IndexedFlights(m, ai)
  {
    var foundDates := ParseDates(m.ymd, m.dmy);
    var foundTimes := ParseTimes(m.clock);
    var airports := DetectAirports(m.iatas, m.lowered);
    var naive: Option<FlightCandidate> := None;
    if Truthy(airports.dest) {
      naive := Some(FlightCandidate(airports.origin, airports.dest, First(foundDates), First(foundTimes),
                                    None, None, None, None, None));
    }
    chosen := ai.flights;
    if |chosen| == 0 && FlightQualifies(naive) {
      chosen := [naive];
    }
  }

  /** The flights and hotels tables plus the calendar requests made so far. */
  class BookingStore {
    var flights: seq<FlightRow>
    var hotels: seq<HotelRow>
    var calendar: seq<CalendarRequest>
    var nextId: nat
    /** The characters `\d` matches in to_dt_iso's clock pattern. */
    const isDecimal: char -> bool

    ghost predicate Valid()
      reads this
    {
      FlightTableOk(flights, nextId) && HotelTableOk(hotels, nextId)
    }

    constructor (isDecimal: char -> bool)
      ensures Valid() && flights == [] && hotels == [] && calendar == [] && nextId == 0
      ensures this.isDecimal == isDecimal
    {
      flights, hotels, calendar, nextId := [], [], [], 0;
      this.isDecimal := isDecimal;
    }

    /** index_booking_from_text: append the stored rows and request one calendar event per row. */
    method IndexBookingFromText(waid: string, m: TextMatches, ai: Extraction,
                                sourceFileId: Option<string>, rawExcerpt: string, now: string)
      requires Valid()
      modifies this
      ensures Valid()
      ensures var fs := IndexedFlights(m, ai);
        var hs := KeptHotels(ai.hotels);
        && flights == AddFlightRows(old(flights), waid, fs, old(nextId), sourceFileId, rawExcerpt, now)
        && hotels == AddHotelRows(old(hotels), waid, hs, old(nextId) + |fs|, sourceFileId, rawExcerpt, now)
        && calendar == AddHotelEvents(AddFlightEvents(old(calendar), waid, fs), waid, hs)
        && nextId == old(nextId) + |fs| + |hs|
    {
      var chosen := CandidateFlights(m, ai);
      StoreCandidates(waid, chosen, ai.hotels, sourceFileId, rawExcerpt, now);
    }

    /** The two storing loops of index_booking_from_text, flights first. */
    method StoreCandidates(waid: string, chosen: seq<Option<FlightCandidate>>, hotelsIn: seq<Option<HotelCandidate>>,
                           sourceFileId: Option<string>, rawExcerpt: string, now: string)
      requires Valid()
      modifies this
      ensures Valid()
      ensures var fs := KeptFlights(chosen);
        var hs := KeptHotels(hotelsIn);
        && flights == AddFlightRows(old(flights), waid, fs, old(nextId), sourceFileId, rawExcerpt, now)
        && hotels == AddHotelRows(old(hotels), waid, hs, old(nextId) + |fs|, sourceFileId, rawExcerpt, now)
        && calendar == AddHotelEvents(AddFlightEvents(old(calendar), waid, fs), waid, hs)
        && nextId == old(nextId) + |fs| + |hs|
    {
      ghost var flights0, hotels0, id0 := flights, hotels, nextId;
      StoreFlights(waid, chosen, sourceFileId, rawExcerpt, now);
      FlightPassKeepsTablesOk(flights0, hotels0, waid, KeptFlights(chosen), id0, sourceFileId, rawExcerpt, now);
      ghost var flights1, id1 := flights, nextId;
      StoreHotels(waid, hotelsIn, sourceFileId, rawExcerpt, now);
      HotelPassKeepsTablesOk(flights1, hotels0, waid, KeptHotels(hotelsIn), id1, sourceFileId, rawExcerpt, now);
    }

    /** The flight loop of index_booking_from_text. */
    method StoreFlights(waid: string, chosen: seq<Option<FlightCandidate>>,
                        sourceFileId: Option<string>, rawExcerpt: string, now: string)
      modifies this
      ensures var fs := KeptFlights(chosen);
        && flights == AddFlightRows(old(flights), waid, fs, old(nextId), sourceFileId, rawExcerpt, now)
        && calendar == AddFlightEvents(old(calendar), waid, fs)
        && nextId == old(nextId) + |fs|
        && hotels == old(hotels)
    {
      ghost var kept: seq<FlightCandidate> := [];
      for i := 0 to |chosen|
        invariant kept == KeptFlightsIn(chosen, i)
        invariant flights == AddFlightRows(old(flights), waid, kept, old(nextId), sourceFileId, rawExcerpt, now)
        invariant calendar == AddFlightEvents(old(calendar), waid, kept)
        invariant nextId == old(nextId) + |kept|
        invariant hotels == old(hotels)
      {
        var fl := chosen[i];
        if fl.Some? && Truthy(fl.value.dest) && Truthy(fl.value.departDate) {
          assert (kept + [fl.value])[..|kept|] == kept;
          StoreFlight(waid, fl.value, sourceFileId, rawExcerpt, now);
          kept := kept + [fl.value];
        }
      }
    }

    /** One pass of the flight loop: insert the row, then request its timed event. */
    method StoreFlight(waid: string, f: FlightCandidate, sourceFileId: Option<string>, rawExcerpt: string, now: string)
      requires Truthy(f.dest) && Truthy(f.departDate)
      modifies this
      ensures flights == old(flights) + [FlightRow(old(nextId), waid, f, sourceFileId, rawExcerpt, now)]
      ensures calendar == old(calendar) + [FlightEvent(waid, f)]
      ensures nextId == old(nextId) + 1 && hotels == old(hotels)
    {
      flights := flights + [FlightRow(nextId, waid, f, sourceFileId, rawExcerpt, now)];
      nextId := nextId + 1;
      var startIso := ToDtIso(f.departDate, f.departTime, isDecimal);
      if startIso.Some? {
        calendar := calendar + [FlightEvent(waid, f)];
      }
    }

    /** The hotel loop of index_booking_from_text. */
    method StoreHotels(waid: string, hs: seq<Option<HotelCandidate>>,
                       sourceFileId: Option<string>, rawExcerpt: string, now: string)
      modifies this
      ensures var kept := KeptHotels(hs);
        && hotels == AddHotelRows(old(hotels), waid, kept, old(nextId), sourceFileId, rawExcerpt, now)
        && calendar == AddHotelEvents(old(calendar), waid, kept)
        && nextId == old(nextId) + |kept|
        && flights == old(flights)
    {
      ghost var kept: seq<HotelCandidate> := [];
      for i := 0 to |hs|
        invariant kept == KeptHotelsIn(hs, i)
        invariant hotels == AddHotelRows(old(hotels), waid, kept, old(nextId), sourceFileId, rawExcerpt, now)
        invariant calendar == AddHotelEvents(old(calendar), waid, kept)
        invariant nextId == old(nextId) + |kept|
        invariant flights == old(flights)
      {
        var ho := hs[i];
        if ho.Some? && Truthy(ho.value.checkinDate) {
          assert (kept + [ho.value])[..|kept|] == kept;
          StoreHotel(waid, ho.value, sourceFileId, rawExcerpt, now);
          kept := kept + [ho.value];
        }
      }
    }

    /** One pass of the hotel loop: insert the row, then request its all-day event. */
    method StoreHotel(waid: string, h: HotelCandidate, sourceFileId: Option<string>, rawExcerpt: string, now: string)
      requires Truthy(h.checkinDate)
      modifies this
      ensures hotels == old(hotels) + [HotelRow(old(nextId), waid, h, sourceFileId, rawExcerpt, now)]
      ensures calendar == old(calendar) + [HotelEvent(waid, h)]
      ensures nextId == old(nextId) + 1 && flights == old(flights)
    {
      hotels := hotels + [HotelRow(nextId, waid, h, sourceFileId, rawExcerpt, now)];
      nextId := nextId + 1;
      calendar := calendar + [HotelEvent(waid, h)];
    }
  }
}
