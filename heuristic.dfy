/**
 * The heuristic extractor of app.py: recognisers for dates, clock times
 * and airports in free text, and the date/time combination used for
 * calendar events.
 *
 * Regular-expression scanning is not modelled character by character: each
 * recogniser receives the groups of its pattern's matches in match order
 * (`finditer`/`findall`), as numbers where the code calls `int(...)`. What
 * is modelled is everything the code does with those matches: calendar
 * validation, range checks, normalisation, de-duplication and precedence.
 */
module Heuristic {
  import opened Wrappers
  import opened Text
  import opened DictKeys

  // ---------------------------------------------------------------------
  // The Gregorian calendar as `datetime(y, mo, d)` checks it
  // ---------------------------------------------------------------------

  predicate IsLeapYear(y: int) {
    y % 4 == 0 && (y % 100 != 0 || y % 400 == 0)
  }

  function DaysInMonth(y: int, m: int): (n: int)
    requires 1 <= m <= 12
    ensures 28 <= n <= 31
    ensures n == 29 <==> m == 2 && IsLeapYear(y)
  {
    if m == 2 then (if IsLeapYear(y) then 29 else 28)
    else if m == 4 || m == 6 || m == 9 || m == 11 then 30
    else 31
  }

  /** `datetime(y, mo, d)` does not raise: a year in MINYEAR..MAXYEAR, a month, a day of that month. */
  predicate IsValidDate(y: int, mo: int, d: int) {
    1 <= y <= 9999 && 1 <= mo <= 12 && 1 <= d <= DaysInMonth(y, mo)
  }

  /** `strftime("%Y-%m-%d")`. */
  function FormatDate(y: nat, mo: nat, d: nat): string {
    Pad(y, 4) + "-" + Pad(mo, 2) + "-" + Pad(d, 2)
  }

  /** A string of the form "YYYY-MM-DD" (digits and dashes in place). */
  predicate IsDateShape(s: string) {
    |s| == 10 && s[4] == '-' && s[7] == '-'
    && (forall i :: 0 <= i < 4 ==> IsDigit(s[i]))
    && IsDigit(s[5]) && IsDigit(s[6]) && IsDigit(s[8]) && IsDigit(s[9])
  }

  /** The (year, month, day) that a "YYYY-MM-DD" string spells. */
  function ReadDate(s: string): (nat, nat, nat)
    requires IsDateShape(s)
  {
    (DecimalValue(s[..4]), DecimalValue(s[5..7]), DecimalValue(s[8..]))
  }

  /** A "YYYY-MM-DD" string naming a real calendar date. */
  predicate IsIsoDate(s: string) {
    IsDateShape(s) && var (y, mo, d) := ReadDate(s); IsValidDate(y, mo, d)
  }

  /** Formatting a valid date gives a "YYYY-MM-DD" string that reads back as that date. */
  lemma FormatDateRoundTrip(y: nat, mo: nat, d: nat)
    requires IsValidDate(y, mo, d)
    ensures IsDateShape(FormatDate(y, mo, d)) && ReadDate(FormatDate(y, mo, d)) == (y, mo, d)
    ensures IsIsoDate(FormatDate(y, mo, d))
  {
    var s := FormatDate(y, mo, d);
    assert s[..4] == Pad(y, 4);
    assert s[5..7] == Pad(mo, 2);
    assert s[8..] == Pad(d, 2);
    PadRoundTrip(y, 4);
    PadRoundTrip(mo, 2);
    PadRoundTrip(d, 2);
  }

  /** Distinct valid dates format to distinct strings. */
  lemma FormatDateInjective(y1: nat, mo1: nat, d1: nat, y2: nat, mo2: nat, d2: nat)
    requires IsValidDate(y1, mo1, d1) && IsValidDate(y2, mo2, d2)
    requires FormatDate(y1, mo1, d1) == FormatDate(y2, mo2, d2)
    ensures y1 == y2 && mo1 == mo2 && d1 == d2
  {
    FormatDateRoundTrip(y1, mo1, d1);
    FormatDateRoundTrip(y2, mo2, d2);
  }

  // ---------------------------------------------------------------------
  // parse_dates (app.py:293-312)
  // ---------------------------------------------------------------------

  /** The three digit groups of one date match, in the pattern's group order. */
  type DateMatch = (nat, nat, nat)

  /** The two entries of DATE_PATTERNS: "YYYY-MM-DD"-like first, then "DD-MM-YYYY"-like. */
  datatype DatePattern = YearFirst | DayFirst

  /** The (year, month, day) a match denotes under its pattern. */
  function MatchFields(m: DateMatch, p: DatePattern): (nat, nat, nat) {
    if p == YearFirst then (m.0, m.1, m.2) else (m.2, m.1, m.0)
  }

  /** The normalised dates of the matches that are real calendar dates, in match order. */
  function ValidDates(ms: seq<DateMatch>, p: DatePattern): (r: seq<string>)
    ensures |r| <= |ms|
    ensures forall i :: 0 <= i < |r| ==> IsIsoDate(r[i])
  {
    if |ms| == 0 then []
    else
      var prior := ValidDates(ms[..|ms| - 1], p);
      var (y, mo, d) := MatchFields(ms[|ms| - 1], p);
      if IsValidDate(y, mo, d) then FormatDateRoundTrip(y, mo, d); prior + [FormatDate(y, mo, d)]
      else prior
  }

  /** Every match that is a real date is reported. */
  lemma {:induction false} ValidDatesComplete(ms: seq<DateMatch>, p: DatePattern, k: nat)
    requires k < |ms|
    requires var (y, mo, d) := MatchFields(ms[k], p); IsValidDate(y, mo, d)
    ensures var (y, mo, d) := MatchFields(ms[k], p); FormatDate(y, mo, d) in ValidDates(ms, p)
  {
    if k < |ms| - 1 {
      var init := ms[..|ms| - 1];
      assert init[k] == ms[k];
      ValidDatesComplete(init, p, k);
    }
  }

  /** Matches none of which is a real date contribute nothing (the month-13 case). */
  lemma {:induction false} ValidDatesSkipsInvalid(ms: seq<DateMatch>, p: DatePattern)
    requires forall k :: 0 <= k < |ms| ==> var (y, mo, d) := MatchFields(ms[k], p); !IsValidDate(y, mo, d)
    ensures ValidDates(ms, p) == []
  {
    if |ms| > 0 {
      ValidDatesSkipsInvalid(ms[..|ms| - 1], p);
    }
  }

  /** Match `m`, read under pattern `p`, is a real date and `s` is its normalised form. */
  predicate ReportsDate(m: DateMatch, p: DatePattern, s: string) {
    var (y, mo, d) := MatchFields(m, p);
    IsValidDate(y, mo, d) && s == FormatDate(y, mo, d)
  }

  /** Every reported date comes from a match that is a real date. */
  lemma {:induction false} ValidDatesSound(ms: seq<DateMatch>, p: DatePattern, s: string)
    requires s in ValidDates(ms, p)
    ensures exists k :: 0 <= k < |ms| && ReportsDate(ms[k], p, s)
  {
    var init := ms[..|ms| - 1];
    if s in ValidDates(init, p) {
      ValidDatesSound(init, p, s);
      var k :| 0 <= k < |init| && ReportsDate(init[k], p, s);
      assert ms[k] == init[k];
    } else {
      assert ReportsDate(ms[|ms| - 1], p, s);
    }
  }

  /** The reported dates are exactly the normalised forms of the matches that are real dates. */
  lemma ValidDatesExactly(ms: seq<DateMatch>, p: DatePattern, s: string)
    ensures s in ValidDates(ms, p) <==> exists k :: 0 <= k < |ms| && ReportsDate(ms[k], p, s)
  {
    if s in ValidDates(ms, p) {
      ValidDatesSound(ms, p, s);
    }
    if exists k :: 0 <= k < |ms| && ReportsDate(ms[k], p, s) {
      var k :| 0 <= k < |ms| && ReportsDate(ms[k], p, s);
      ValidDatesComplete(ms, p, k);
    }
  }

  /** The matches are filtered one by one: the result for a concatenation is the concatenation. */
  lemma {:induction false} ValidDatesConcat(a: seq<DateMatch>, b: seq<DateMatch>, p: DatePattern)
    ensures ValidDates(a + b, p) == ValidDates(a, p) + ValidDates(b, p)
  {
    if |b| == 0 {
      assert a + b == a;
    } else {
      assert (a + b)[..|a + b| - 1] == a + b[..|b| - 1];
      assert (a + b)[|a + b| - 1] == b[|b| - 1];
      ValidDatesConcat(a, b[..|b| - 1], p);
    }
  }

  /** Removing a match that is not a real date leaves the result unchanged. */
  lemma ValidDatesDropInvalid(ms: seq<DateMatch>, p: DatePattern, k: nat)
    requires k < |ms|
    requires var (y, mo, d) := MatchFields(ms[k], p); !IsValidDate(y, mo, d)
    ensures ValidDates(ms[..k] + ms[k + 1..], p) == ValidDates(ms, p)
  {
    var before, m, after := ms[..k], ms[k], ms[k + 1..];
    assert ms == before + ([m] + after);
    ValidDatesOfInvalid(m, p);
    ValidDatesConcat([m], after, p);
    ValidDatesConcat(before, [m] + after, p);
    ValidDatesConcat(before, after, p);
  }

  lemma ValidDatesOfInvalid(m: DateMatch, p: DatePattern)
    requires var (y, mo, d) := MatchFields(m, p); !IsValidDate(y, mo, d)
    ensures ValidDates([m], p) == []
  {
    assert [m][..0] == [];
  }


  /** parse_dates reports a date exactly when some match of either pattern denotes it. */
  lemma ParseDatesExactly(ymd: seq<DateMatch>, dmy: seq<DateMatch>, s: string)
    ensures s in Dedup(ValidDates(ymd, YearFirst) + ValidDates(dmy, DayFirst)) <==>
      (exists k :: 0 <= k < |ymd| && ReportsDate(ymd[k], YearFirst, s))
      || (exists k :: 0 <= k < |dmy| && ReportsDate(dmy[k], DayFirst, s))
  {
    var all := ValidDates(ymd, YearFirst) + ValidDates(dmy, DayFirst);
    ValidDatesExactly(ymd, YearFirst, s);
    ValidDatesExactly(dmy, DayFirst, s);
    if s in Dedup(all) {
      var i :| 0 <= i < |Dedup(all)| && Dedup(all)[i] == s;
      assert s in all;
    }
    if s in all {
      var j :| 0 <= j < |all| && all[j] == s;
      assert all[j] in Dedup(all);
    }
  }

  /** parse_dates: both patterns' valid matches, normalised, then de-duplicated. */
  method ParseDates(ymd: seq<DateMatch>, dmy: seq<DateMatch>) returns (dates: seq<string>)
    ensures dates == Dedup(ValidDates(ymd, YearFirst) + ValidDates(dmy, DayFirst))
    ensures forall i :: 0 <= i < |dates| ==> IsIsoDate(dates[i])
    ensures NoDuplicates(dates)
    ensures Dedup(ValidDates(ymd, YearFirst)) <= dates
  {
    var out: seq<string> := [];
    var patterns := [YearFirst, DayFirst];
    for k := 0 to 2
      invariant out == if k == 0 then [] else if k == 1 then ValidDates(ymd, YearFirst)
                       else ValidDates(ymd, YearFirst) + ValidDates(dmy, DayFirst)
    {
      out := AppendValidDates(out, if k == 0 then ymd else dmy, patterns[k]);
    }
    dates := Dedup(out);
    var all := ValidDates(ymd, YearFirst) + ValidDates(dmy, DayFirst);
    forall i | 0 <= i < |dates|
      ensures IsIsoDate(dates[i])
    {
      var j :| 0 <= j < |all| && all[j] == dates[i];
    }
    DedupPrefix(ValidDates(ymd, YearFirst), ValidDates(dmy, DayFirst));
  }

  /** The inner loop of parse_dates: append the valid matches of one pattern. */
  method AppendValidDates(out: seq<string>, ms: seq<DateMatch>, p: DatePattern) returns (res: seq<string>)
    ensures res == out + ValidDates(ms, p)
  {
    res := out;
    var i := 0;
    while i < |ms|
      invariant 0 <= i <= |ms|
      invariant res == out + ValidDates(ms[..i], p)
    {
      var (y, mo, d) := MatchFields(ms[i], p);
      assert ms[..i + 1][..i] == ms[..i];
      if IsValidDate(y, mo, d) {
        res := res + [FormatDate(y, mo, d)];
      }
      i := i + 1;
    }
    assert ms[..|ms|] == ms;
  }

  // ---------------------------------------------------------------------
  // parse_times (app.py:297, 314-320)
  // ---------------------------------------------------------------------

  /** The hour and minute groups of one `\b(\d{1,2}):(\d{2})\b` match. */
  type TimeMatch = (nat, nat)

  predicate IsClockTime(h: int, mi: int) {
    0 <= h <= 23 && 0 <= mi <= 59
  }

  /** `f"{h:02d}:{mi:02d}"`. */
  function FormatTime(h: nat, mi: nat): string {
    Pad(h, 2) + ":" + Pad(mi, 2)
  }

  /** A string "HH:MM" of digits naming a time of day. */
  predicate IsHhMm(s: string) {
    |s| == 5 && s[2] == ':' && IsDigit(s[0]) && IsDigit(s[1]) && IsDigit(s[3]) && IsDigit(s[4])
    && IsClockTime(DecimalValue(s[..2]), DecimalValue(s[3..]))
  }

  lemma FormatTimeRoundTrip(h: nat, mi: nat)
    requires IsClockTime(h, mi)
    ensures IsHhMm(FormatTime(h, mi))
    ensures DecimalValue(FormatTime(h, mi)[..2]) == h && DecimalValue(FormatTime(h, mi)[3..]) == mi
  {
    var s := FormatTime(h, mi);
    assert s[..2] == Pad(h, 2);
    assert s[3..] == Pad(mi, 2);
    PadRoundTrip(h, 2);
    PadRoundTrip(mi, 2);
  }

  /** The normalised times of the in-range matches, in match order. */
  function ValidTimes(ms: seq<TimeMatch>): (r: seq<string>)
    ensures |r| <= |ms|
    ensures forall i :: 0 <= i < |r| ==> IsHhMm(r[i])
  {
    if |ms| == 0 then []
    else
      var prior := ValidTimes(ms[..|ms| - 1]);
      var (h, mi) := ms[|ms| - 1];
      if IsClockTime(h, mi) then FormatTimeRoundTrip(h, mi); prior + [FormatTime(h, mi)]
      else prior
  }

  /** Every in-range match is reported. */
  lemma {:induction false} ValidTimesComplete(ms: seq<TimeMatch>, k: nat)
    requires k < |ms| && IsClockTime(ms[k].0, ms[k].1)
    ensures FormatTime(ms[k].0, ms[k].1) in ValidTimes(ms)
  {
    if k < |ms| - 1 {
      var init := ms[..|ms| - 1];
      assert init[k] == ms[k];
      ValidTimesComplete(init, k);
    }
  }

  /** Match `m` is an in-range clock time and `s` is its zero-padded form. */
  predicate ReportsTime(m: TimeMatch, s: string) {
    IsClockTime(m.0, m.1) && s == FormatTime(m.0, m.1)
  }

  /** Every reported time comes from an in-range match. */
  lemma {:induction false} ValidTimesSound(ms: seq<TimeMatch>, s: string)
    requires s in ValidTimes(ms)
    ensures exists k :: 0 <= k < |ms| && ReportsTime(ms[k], s)
  {
    var init := ms[..|ms| - 1];
    if s in ValidTimes(init) {
      ValidTimesSound(init, s);
      var k :| 0 <= k < |init| && ReportsTime(init[k], s);
      assert ms[k] == init[k];
    } else {
      assert ReportsTime(ms[|ms| - 1], s);
    }
  }

  /** The reported times are exactly the padded forms of the in-range matches. */
  lemma ValidTimesExactly(ms: seq<TimeMatch>, s: string)
    ensures s in ValidTimes(ms) <==> exists k :: 0 <= k < |ms| && ReportsTime(ms[k], s)
  {
    if s in ValidTimes(ms) {
      ValidTimesSound(ms, s);
    }
    if exists k :: 0 <= k < |ms| && ReportsTime(ms[k], s) {
      var k :| 0 <= k < |ms| && ReportsTime(ms[k], s);
      ValidTimesComplete(ms, k);
    }
  }

  /** The matches are filtered one by one: the result for a concatenation is the concatenation. */
  lemma {:induction false} ValidTimesConcat(a: seq<TimeMatch>, b: seq<TimeMatch>)
    ensures ValidTimes(a + b) == ValidTimes(a) + ValidTimes(b)
  {
    if |b| == 0 {
      assert a + b == a;
    } else {
      assert (a + b)[..|a + b| - 1] == a + b[..|b| - 1];
      assert (a + b)[|a + b| - 1] == b[|b| - 1];
      ValidTimesConcat(a, b[..|b| - 1]);
    }
  }

  /** Removing an out-of-range match (such as 24:00 or 12:60) leaves the result unchanged. */
  lemma ValidTimesDropInvalid(ms: seq<TimeMatch>, k: nat)
    requires k < |ms| && !IsClockTime(ms[k].0, ms[k].1)
    ensures ValidTimes(ms[..k] + ms[k + 1..]) == ValidTimes(ms)
  {
    var before, m, after := ms[..k], ms[k], ms[k + 1..];
    assert ms == before + ([m] + after);
    ValidTimesOfInvalid(m);
    ValidTimesConcat([m], after);
    ValidTimesConcat(before, [m] + after);
    ValidTimesConcat(before, after);
  }

  lemma ValidTimesOfInvalid(m: TimeMatch)
    requires !IsClockTime(m.0, m.1)
    ensures ValidTimes([m]) == []
  {
    assert [m][..0] == [];
  }


  /** parse_times: keep the in-range matches, zero-pad them, de-duplicate. */
  method ParseTimes(ms: seq<TimeMatch>) returns (times: seq<string>)
    ensures times == Dedup(ValidTimes(ms))
    ensures forall i :: 0 <= i < |times| ==> IsHhMm(times[i])
    ensures NoDuplicates(times)
  {
    var res: seq<string> := [];
    for i := 0 to |ms|
      invariant res == ValidTimes(ms[..i])
    {
      var (h, mi) := ms[i];
      assert ms[..i + 1][..i] == ms[..i];
      if 0 <= h <= 23 && 0 <= mi <= 59 {
        res := res + [FormatTime(h, mi)];
      }
    }
    assert ms[..|ms|] == ms;
    times := Dedup(res);
    forall i | 0 <= i < |times|
      ensures IsHhMm(times[i])
    {
      var j :| 0 <= j < |res| && res[j] == times[i];
    }
  }

  // ---------------------------------------------------------------------
  // detect_airports (app.py:284-292, 322-335)
  // ---------------------------------------------------------------------

  /** CITY_MAP in its insertion order: lower-case city name to airport code. */
  const CityMap: seq<(string, string)> := [
    ("\U{5D1}\U{5E0}\U{5D2}\U{5E7}\U{5D5}\U{5E7}", "BKK"),
    ("bangkok", "BKK"),
    ("\U{5E4}\U{5D5}\U{5E7}\U{5D8}", "HKT"),
    ("phuket", "HKT"),
    ("chiang mai", "CNX"),
    ("\U{5E6}'\U{5D9}\U{5D0}\U{5E0}\U{5D2} \U{5DE}\U{5D0}\U{5D9}", "CNX"),
    ("\U{5E6}\U{5F3}\U{5D9}\U{5D0}\U{5E0}\U{5D2} \U{5DE}\U{5D0}\U{5D9}", "CNX"),
    ("\U{E40}\U{E0A}\U{E35}\U{E22}\U{E07}\U{E43}\U{E2B}\U{E21}\U{E48}", "CNX"),
    ("\U{5E7}\U{5D5}\U{5E1}\U{5DE}\U{5D5}\U{5D9}", "USM"),
    ("koh samui", "USM"),
    ("\U{5E1}\U{5DE}\U{5D5}\U{5D9}", "USM"),
    ("\U{5E7}\U{5E8}\U{5D0}\U{5D1}\U{5D9}", "KBV"),
    ("krabi", "KBV"),
    ("\U{5EA}\U{5DC} \U{5D0}\U{5D1}\U{5D9}\U{5D1}", "TLV"),
    ("tel aviv", "TLV"),
    ("\U{5E0}\U{5EA}\U{5D1}\U{5D2}", "TLV"),
    ("\U{5E0}\U{5EA}\U{5D1}\"\U{5D2}", "TLV"),
    ("israel", "TLV"),
    ("\U{5E7}\U{5D5}\U{5E4}\U{5E0}\U{5D2}\U{5DF}", "KOPH"),
    ("koh phangan", "KOPH")
  ]

  /** The codes the city scan may report (KOPH is in the table but filtered out). */
  const ServedCodes: set<string> := {"BKK", "HKT", "CNX", "USM", "KBV", "TLV"}

  /** The home airport an origin-less route defaults to. */
  const HomeAirport: string := "TLV"

  datatype Airports = Airports(origin: Option<string>, dest: Option<string>)

  /** One `\b[A-Z]{3}\b` match. */
  predicate IsIataToken(s: string) {
    |s| == 3 && forall i :: 0 <= i < 3 ==> IsUpperLetter(s[i])
  }

  /** Entry k of the city table is named in the lower-cased text, has a served code, and that code is not `except`. */
  predicate CityHit(table: seq<(string, string)>, lowered: string, k: nat, except: Option<string>) {
    k < |table| && Contains(lowered, table[k].0) && table[k].1 in ServedCodes
    && (except.None? || table[k].1 != except.value)
  }

  /** The first table index in [lo, hi) that is a hit. */
  function FirstHit(table: seq<(string, string)>, lowered: string, lo: nat, hi: nat, except: Option<string>): (r: Option<nat>)
    requires lo <= hi <= |table|
    ensures r.Some? ==> lo <= r.value < hi && CityHit(table, lowered, r.value, except)
    ensures r.Some? ==> forall k :: lo <= k < r.value ==> !CityHit(table, lowered, k, except)
    ensures r.None? ==> forall k :: lo <= k < hi ==> !CityHit(table, lowered, k, except)
    decreases hi
  {
    if hi == lo then None
    else
      var r := FirstHit(table, lowered, lo, hi - 1, except);
      if r.Some? then r else if CityHit(table, lowered, hi - 1, except) then Some(hi - 1) else None
  }

  function CodeAt(table: seq<(string, string)>, k: Option<nat>): Option<string>
    requires k.Some? ==> k.value < |table|
  {
    if k.Some? then Some(table[k.value].1) else None
  }

  /** The city-table result: the first hit is the origin, the first later hit with another code the destination. */
  function CityScan(table: seq<(string, string)>, lowered: string): Airports {
    var first := FirstHit(table, lowered, 0, |table|, None);
    if first.None? then Airports(None, None)
    else
      var origin := table[first.value].1;
      Airports(Some(origin), CodeAt(table, FirstHit(table, lowered, first.value + 1, |table|, Some(origin))))
  }

  /** detect_airports before its final home-airport default. */
  function ScannedAirports(iatas: seq<string>, lowered: string): Airports {
    if |iatas| >= 2 then Airports(Some(iatas[0]), Some(iatas[1])) else CityScan(CityMap, lowered)
  }

  /** detect_airports: the scan, then "a destination without an origin departs from home". */
  function DetectedAirports(iatas: seq<string>, lowered: string): Airports {
    var a := ScannedAirports(iatas, lowered);
    if Truthy(a.dest) && !Truthy(a.origin) then a.(origin := Some(HomeAirport)) else a
  }

  /** Two or more bare codes decide the route by themselves: the first two, in text order. */
  lemma TokensTakePrecedence(iatas: seq<string>, lowered: string)
    requires |iatas| >= 2 && IsIataToken(iatas[0])
    ensures DetectedAirports(iatas, lowered) == Airports(Some(iatas[0]), Some(iatas[1]))
  {
  }

  /** The city scan reports only served codes, never the same code twice, and no destination without an origin. */
  lemma CityScanCodes(table: seq<(string, string)>, lowered: string)
    ensures var a := CityScan(table, lowered);
      && (a.origin.Some? ==> a.origin.value in ServedCodes)
      && (a.dest.Some? ==> a.dest.value in ServedCodes && a.origin.Some? && a.dest != a.origin)
  {
  }

  /**
   * The home-airport default never fires: whenever the scan finds a
   * destination it has already found an origin.
   */
  lemma HomeDefaultUnreachable(iatas: seq<string>, lowered: string)
    requires |iatas| >= 2 ==> IsIataToken(iatas[0])
    ensures DetectedAirports(iatas, lowered) == ScannedAirports(iatas, lowered)
  {
    var a := ScannedAirports(iatas, lowered);
    if |iatas| < 2 {
      CityScanCodes(CityMap, lowered);
      if a.origin.Some? {
        assert a.origin.value in ServedCodes;
        assert a.origin.value != "";
      }
    }
  }

  /** With fewer than two bare codes and no city name in the text, nothing is found (so no fallback flight). */
  lemma NoCityNoRoute(iatas: seq<string>, lowered: string)
    requires |iatas| < 2
    requires forall k :: 0 <= k < |CityMap| ==> !Contains(lowered, CityMap[k].0)
    ensures DetectedAirports(iatas, lowered) == Airports(None, None)
  {
    assert FirstHit(CityMap, lowered, 0, |CityMap|, None).None?;
  }

  /**
   * The route follows the order of the city table, not of the text: a text
   * naming Bangkok always departs from BKK, and one naming Tel Aviv as well
   * (but none of the cities listed between them) arrives at TLV, whichever
   * city the text names first.
   */
  lemma CityOrderNotTextOrder(iatas: seq<string>, lowered: string)
    requires |iatas| < 2 && Contains(lowered, "bangkok")
    ensures DetectedAirports(iatas, lowered).origin == Some("BKK")
    ensures Contains(lowered, "tel aviv") && (forall k :: 2 <= k < 13 ==> !Contains(lowered, CityMap[k].0))
      ==> DetectedAirports(iatas, lowered).dest == Some("TLV")
  {
    assert CityHit(CityMap, lowered, 1, None);
    var first := FirstHit(CityMap, lowered, 0, |CityMap|, None);
    assert first.value <= 1;
    assert CityMap[first.value].1 == "BKK";
    HomeDefaultUnreachable(iatas, lowered);
    if Contains(lowered, "tel aviv") && (forall k :: 2 <= k < 13 ==> !Contains(lowered, CityMap[k].0)) {
      assert CityHit(CityMap, lowered, 14, Some("BKK"));
      var second := FirstHit(CityMap, lowered, first.value + 1, |CityMap|, Some("BKK"));
      assert second.Some? && second.value <= 14;
      assert second.value != 1;
    }
  }

  /** Extending the scanned range by one entry extends a later-hit search by that entry. */
  lemma ScanDestStep(table: seq<(string, string)>, lowered: string, lo: nat, i: nat, except: Option<string>)
    requires lo <= i < |table|
    ensures FirstHit(table, lowered, lo, i + 1, except)
      == if FirstHit(table, lowered, lo, i, except).Some? then FirstHit(table, lowered, lo, i, except)
         else if CityHit(table, lowered, i, except) then Some(i) else None
  {
  }

  /** The loop over the city table inside detect_airports. */
  method ScanCities(table: seq<(string, string)>, lowered: string) returns (origin: Option<string>, dest: Option<string>)
    ensures Airports(origin, dest) == CityScan(table, lowered)
  {
    origin, dest := None, None;
    for i := 0 to |table|
      invariant origin == CodeAt(table, FirstHit(table, lowered, 0, i, None))
      invariant origin.None? ==> dest.None?
      invariant origin.Some? ==>
        var k := FirstHit(table, lowered, 0, i, None).value;
        dest == CodeAt(table, FirstHit(table, lowered, k + 1, i, origin))
    {
      var (name, code) := table[i];
      ghost var first := FirstHit(table, lowered, 0, i, None);
      if Contains(lowered, name) && code in ServedCodes {
        if origin.None? {
          origin := Some(code);
          assert FirstHit(table, lowered, i + 1, i + 1, origin) == None;
        } else if dest.None? && code != origin.value {
          dest := Some(code);
          ScanDestStep(table, lowered, first.value + 1, i, origin);
        } else {
          ScanDestStep(table, lowered, first.value + 1, i, origin);
        }
      } else if origin.Some? {
        ScanDestStep(table, lowered, first.value + 1, i, origin);
      }
    }
  }

  /** detect_airports: two bare codes win, otherwise the city table, then the home default. */
  method DetectAirports(iatas: seq<string>, lowered: string) returns (a: Airports)
    ensures a == DetectedAirports(iatas, lowered)
  {
    var origin: Option<string> := None;
    var dest: Option<string> := None;
    if |iatas| >= 2 {
      origin, dest := Some(iatas[0]), Some(iatas[1]);
    } else {
      origin, dest := ScanCities(CityMap, lowered);
    }
    if Truthy(dest) && !Truthy(origin) {
      origin := Some(HomeAirport);
    }
    a := Airports(origin, dest);
  }

  // ---------------------------------------------------------------------
  // to_dt_iso (app.py:436-439)
  // ---------------------------------------------------------------------

  /**
   * `re.match(r"^\d{2}:\d{2}$", t)`: two digits, a colon, two digits, and
   * then the end of the string, where Python's `$` also accepts one final
   * newline. In a str pattern `\d` matches every Unicode decimal digit
   * (general category Nd), not only '0'..'9'; that class is the parameter
   * `isDecimal`.
   */
  predicate IsTwoDigitClock(t: string, isDecimal: char -> bool) {
    (|t| == 5 || (|t| == 6 && t[5] == '\n'))
    && isDecimal(t[0]) && isDecimal(t[1]) && t[2] == ':' && isDecimal(t[3]) && isDecimal(t[4])
  }

  /** The Unicode decimal digits include the ASCII ones. */
  predicate CoversAscii(isDecimal: char -> bool) {
    forall c :: IsDigit(c) ==> isDecimal(c)
  }

  /** The start of a timed calendar event: the given clock time, or 09:00 when there is none. */
  function ToDtIso(date: Option<string>, time: Option<string>, isDecimal: char -> bool): (r: Option<string>)
    ensures r.Some? <==> Truthy(date)
    ensures r.Some? ==> date.value + "T" <= r.value
  {
    if !Truthy(date) then None
    else if Truthy(time) && IsTwoDigitClock(time.value, isDecimal) then Some(date.value + "T" + time.value + ":00")
    else Some(date.value + "T09:00:00")
  }

  /** Any two-digit clock, in whichever decimal digits, is used as it is. */
  lemma ToDtIsoOfClock(date: string, time: string, isDecimal: char -> bool)
    requires date != [] && IsTwoDigitClock(time, isDecimal)
    ensures ToDtIso(Some(date), Some(time), isDecimal) == Some(date + "T" + time + ":00")
  {
  }

  /** A time produced by parse_times is used as it is. */
  lemma ToDtIsoOfParsedTime(date: string, time: string, isDecimal: char -> bool)
    requires date != [] && IsHhMm(time) && CoversAscii(isDecimal)
    ensures ToDtIso(Some(date), Some(time), isDecimal) == Some(date + "T" + time + ":00")
  {
    assert isDecimal(time[0]) && isDecimal(time[1]) && isDecimal(time[3]) && isDecimal(time[4]);
  }

  /** Without a usable time the event starts at nine in the morning. */
  lemma ToDtIsoDefault(date: string, time: Option<string>, isDecimal: char -> bool)
    requires date != [] && (time.None? || !IsTwoDigitClock(time.value, isDecimal))
    ensures ToDtIso(Some(date), time, isDecimal) == Some(date + "T09:00:00")
  {
  }
}
