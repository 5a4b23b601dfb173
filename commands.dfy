/**
 * The hard-coded flight-watch commands of the WhatsApp webhook: recognising
 * "track <flight> [date]" (`_fw_parse_track`, app.py:647-654) and
 * "untrack <flight>" or "untrack" for every flight (`_fw_parse_untrack`,
 * app.py:656-660), and the order in which the webhook tries them
 * (app.py:1062-1077).
 *
 * The regular-expression searches are inputs: `flightMatch` is the first
 * match of IATA_RE (`\b([A-Z]{2}\d{1,4})\b` with IGNORECASE) in the
 * upper-cased text and `dateMatch` the first `20\d{2}-\d{2}-\d{2}` match of
 * the text. `lowered` is the text after `str.lower()`. In a str pattern
 * `\d` is any Unicode decimal digit and IGNORECASE lets `[A-Z]` match
 * characters such as U+212A KELVIN SIGN, so a match need not be ASCII.
 */
module WatchCommands {
  import opened Wrappers
  import opened Text

  /** The keywords that make a message a track command ("עקוב" is Hebrew for "follow"). */
  const TrackKeywords: seq<string> := ["\U{5E2}\U{5E7}\U{5D5}\U{5D1}", "track"]
  /** The keywords of an untrack command ("בטל" is "cancel", "הסר" is "remove"). */
  const UntrackKeywords: seq<string> := ["\U{5D1}\U{5D8}\U{5DC}", "unsubscribe", "untrack", "\U{5D4}\U{5E1}\U{5E8}"]
  /** The target `_fw_parse_untrack` returns when no flight code is given. */
  const AllFlights: string := "__ALL__"

  /** `any(k in t for k in keys)`. */
  predicate AnyIn(t: string, keys: seq<string>) {
    exists i :: 0 <= i < |keys| && Contains(t, keys[i])
  }

  /**
   * What is known of an IATA_RE match: it is not empty and it begins with a
   * character that `[A-Z]` matches, which is never an underscore.
   */
  predicate IsFlightMatch(s: string) {
    s != [] && s[0] != '_'
  }

  /**
   * `_fw_parse_track(text)`: (flight, date, is_track). A message without a
   * track keyword is not a track command; one without a flight code is a
   * track command with no flight.
   */
  function ParseTrack(lowered: string, flightMatch: Option<string>, dateMatch: Option<string>)
    : (r: (Option<string>, Option<string>, bool))
    ensures r.2 <==> AnyIn(Strip(lowered), TrackKeywords)
    ensures r.0.Some? <==> r.2 && flightMatch.Some?
    ensures r.0.Some? ==> r.0.value == Upper(flightMatch.value) && r.1 == dateMatch
    ensures r.0.None? ==> r.1.None?
  {
    var t := Strip(lowered);
    var isTrack := Contains(t, TrackKeywords[0]) || Contains(t, TrackKeywords[1]);
    assert isTrack <==> AnyIn(t, TrackKeywords) by {
      if AnyIn(t, TrackKeywords) {
        var i :| 0 <= i < |TrackKeywords| && Contains(t, TrackKeywords[i]);
      }
    }
    if !isTrack then (None, None, false)
    else if flightMatch.None? then (None, None, true)
    else (Some(Upper(flightMatch.value)), dateMatch, true)
  }

  /** `_fw_parse_untrack(text)`: None, the upper-cased flight code, or the all-flights marker. */
  function ParseUntrack(lowered: string, flightMatch: Option<string>): (r: Option<string>)
    ensures r.Some? <==> AnyIn(lowered, UntrackKeywords)
    ensures r.Some? && flightMatch.Some? ==> r.value == Upper(flightMatch.value)
    ensures r.Some? && flightMatch.None? ==> r.value == AllFlights
  {
    if !AnyIn(lowered, UntrackKeywords) then None
    else if flightMatch.Some? then Some(Upper(flightMatch.value))
    else Some(AllFlights)
  }

  /** A flight code found in the text never collides with the all-flights marker. */
  lemma UntrackTargetDistinct(lowered: string, flightMatch: Option<string>)
    requires flightMatch.Some? ==> IsFlightMatch(flightMatch.value)
    requires AnyIn(lowered, UntrackKeywords)
    ensures ParseUntrack(lowered, flightMatch) == Some(AllFlights) <==> flightMatch.None?
  {
    if flightMatch.Some? {
      assert Upper(flightMatch.value)[0] == UpperChar(flightMatch.value[0]);
      assert UpperChar(flightMatch.value[0]) != '_';
      assert AllFlights[0] == '_';
    }
  }

  /** What the fallback part of the webhook does with a message. */
  datatype WatchCommand =
    | Track(flight: Option<string>, date: Option<string>)
    | Untrack(target: string)
    | NoWatchCommand

  /** The dispatch as written: the track parser is tried first. */
  function FallbackCommandAsWritten(lowered: string, flightMatch: Option<string>, dateMatch: Option<string>)
    : (r: WatchCommand)
    ensures AnyIn(Strip(lowered), TrackKeywords) ==> r.Track?
  {
    var (flight, date, isTrack) := ParseTrack(lowered, flightMatch, dateMatch);
    if isTrack then Track(flight, date)
    else
      var target := ParseUntrack(lowered, flightMatch);
      if Truthy(target) then Untrack(target.value) else NoWatchCommand
  }

  /**
   * "track" is a piece of "untrack", so every untrack message is taken for a
   * track command: it subscribes instead of cancelling.
   */
  lemma UntrackShadowedAsWritten(lowered: string, flightMatch: Option<string>, dateMatch: Option<string>)
    requires Contains(Strip(lowered), "untrack")
    ensures FallbackCommandAsWritten(lowered, flightMatch, dateMatch).Track?
  {
    assert "un" + "track" == "untrack";
    ContainsTail(Strip(lowered), "un", "track");
    assert TrackKeywords[1] == "track";
  }

  /** The message "untrack LY81" subscribes to LY81. */
  lemma UntrackExampleAsWritten(t: string)
    requires t == "untrack ly81"
    ensures FallbackCommandAsWritten(t, Some("LY81"), None) == Track(Some("LY81"), None)
  {
    assert t[0] == 'u' && t[|t| - 1] == '1';
    StripUnpadded(t);
    assert t[0..7] == "untrack";
    ContainsAt(t, "untrack", 0);
    UntrackShadowedAsWritten(t, Some("LY81"), None);
    assert Upper("LY81") == "LY81";
  }

  /** An occurrence of `a + b` contains an occurrence of `b`. */
  lemma {:induction false} ContainsTail(t: string, a: string, b: string)
    requires Contains(t, a + b)
    ensures Contains(t, b)
    decreases |t|
  {
    if a + b <= t {
      assert t[|a|..|a| + |b|] == b;
      ContainsAt(t, b, |a|);
    } else {
      ContainsTail(t[1..], a, b);
    }
  }

  /** The dispatch the webhook evidently intends: an untrack keyword wins over "track". */
  function FallbackCommand(lowered: string, flightMatch: Option<string>, dateMatch: Option<string>): (r: WatchCommand)
    ensures AnyIn(lowered, UntrackKeywords) && (flightMatch.None? || flightMatch.value != "")
      ==> r == Untrack(if flightMatch.Some? then Upper(flightMatch.value) else AllFlights)
  {
    var target := ParseUntrack(lowered, flightMatch);
    if Truthy(target) then Untrack(target.value)
    else
      var (flight, date, isTrack) := ParseTrack(lowered, flightMatch, dateMatch);
      if isTrack then Track(flight, date) else NoWatchCommand
  }

  /** Without an untrack keyword the corrected dispatch is the one written. */
  lemma FallbackCommandAgrees(lowered: string, flightMatch: Option<string>, dateMatch: Option<string>)
    requires !AnyIn(lowered, UntrackKeywords)
    ensures FallbackCommand(lowered, flightMatch, dateMatch) == FallbackCommandAsWritten(lowered, flightMatch, dateMatch)
  {
  }

  /** With the corrected dispatch, "untrack LY81" cancels LY81. */
  lemma UntrackExample(t: string)
    requires t == "untrack ly81"
    ensures FallbackCommand(t, Some("LY81"), None) == Untrack("LY81")
  {
    assert t[0..7] == "untrack";
    ContainsAt(t, "untrack", 0);
    assert UntrackKeywords[2] == "untrack";
    assert Upper("LY81") == "LY81";
  }
}
