# Thailand 2025 travel assistant — verified model of the booking indexer and the flight watch

This project models, in Dafny, the two behaviours at the heart of `app.py` of
the WhatsApp travel assistant, plus the small string helpers they rely on.
It proves the properties the code promises about them.

* **Booking indexing** (`index_booking_from_text` and its recognisers):
  * `parse_dates` and `parse_times` turn the matches of their regular
    expressions into normalised, calendar-valid, de-duplicated lists.
  * `detect_airports` finds a route from bare airport codes or from the
    CITY_MAP table.
  * `to_dt_iso` builds the start time of a calendar event.
  * The indexer chooses between the language-model extraction and the
    heuristic flight. It appends the qualifying flight and hotel rows and
    requests one calendar event per stored row.
* **Flight watch**:
  * The `flight_watch` table.
  * Subscribing and cancelling, in both the natural-language branch and
    the fallback `track`/`untrack` commands, with their parsers.
  * The provider-record snapshot and the fan-out of notifications to the
    owner and the CC list.
  * The `cron_flightwatch` change-detection pass.
* **Helpers**: `chunk_text`, `normalize_waid`, `build_flight_links`.

Modules, in dependency order:

| file | module | models |
|---|---|---|
| `wrappers.dfy` | `Wrappers` | `Option` (Python's `None`) |
| `text.dfy` | `Text` | `strip`/`lstrip`/`replace`/`in`/`upper`, `chunk_text`, `normalize_waid`, `build_flight_links`, zero-padded numbers |
| `dedup.dfy` | `DictKeys` | `list(dict.fromkeys(xs))` |
| `heuristic.dfy` | `Heuristic` | the Gregorian check of `datetime(y, m, d)`, `parse_dates`, `parse_times`, CITY_MAP, `detect_airports`, `to_dt_iso` |
| `indexer.dfy` | `Indexer` | `index_booking_from_text` and the `BookingStore` class (flights, hotels, calendar requests) |
| `snapshot.dfy` | `Snapshots` | JSON values, `_fw_snapshot_from_aviationstack` and its `safe` helper |
| `commands.dfy` | `WatchCommands` | `_fw_parse_track`, `_fw_parse_untrack`, the order of the fallback commands |
| `watch.dfy` | `FlightWatch` | the `flight_watch` table, the `WatchStore` class, `_fw_send_to_all`, `cron_flightwatch` |

The code changes state in the indexer loops, the subscribe and cancel
branches, the fan-out loop and the cron loop. Those parts are methods of two
classes, `Indexer.BookingStore` and `FlightWatch.WatchStore`. Each method's
`ensures` ties the new state to a specification function of the old state,
such as `AddFlightRows`, `Remaining`, `Broadcast`, `PollAll` and `SentAfter`.
The properties are then proved about those functions as lemmas. Everything
else is a function with lemmas.

Inputs that come from outside the program are parameters:

* The regular-expression matches and the lower-cased text (`TextMatches`,
  `lowered`, `flightMatch`, `dateMatch`).
* The language-model extraction (`Extraction`).
* The Aviationstack lookup, the snapshot hash and the message rendering
  (fields of `PassInputs`).
* The clock reading (`now`).

Row ids are counters.

`NOTIFY_CC_WAIDS` is read once at start-up (app.py:68), so every call of
`_fw_send_to_all` rewrites the same list into the same recipients. The store
makes that rewriting once, in its constructor, and keeps the result in
`ccRecipients`. `FlightWatch.NotifyContents` states what one call sends when
the rewriting is done per call.

Where the project's own description and the code disagree, the model
follows the code:

* **Home-airport default.** The description says a destination found without
  an origin gets the home airport TLV as its origin. In the code the city
  scan only sets a destination after it has set an origin, and two bare codes
  set both, so that default never fires (`Heuristic.HomeDefaultUnreachable`).
* **Order of the city scan.** The description says the first city found is
  the origin. The code finds cities in the order of the CITY_MAP table, not
  the order of the text (`Heuristic.CityOrderNotTextOrder`).
* **A single bare code.** The description expects that "Flight to BKK on
  2025-09-08", without a language model, stores one flight to BKK. In the
  code, one bare code is fewer than the two the code requires. The text also
  names no city in the table, so no destination is found and no flight is
  stored (`Heuristic.NoCityNoRoute`, `Indexer.FallbackFlight`).

## Model

| member | source | states |
|---|---|---|
| Text.Upper | app.py:650 | upper-casing keeps the length and maps every character through the ASCII upper-case map |
| Text.RemoveAll | app.py:666 | `str.replace(pat, "")` never makes a string longer |
| Text.RemoveAllAbsent | app.py:666 | replacing a piece that does not occur leaves the string unchanged |
| Text.PadRoundTrip | app.py:309 | zero-padding a number that fits its width and reading it back gives the number |
| Text.ChunkText | app.py:235-237 | `[""]` for empty text (and for a negative step); otherwise the pieces have length at most n and concatenate back to the input |
| Text.ChunksJoin | app.py:235-237 | the pieces concatenate back to the text |
| Text.ChunkAt | app.py:237 | piece i is exactly the slice `s[i*n : i*n+n]` the comprehension takes |
| Text.ChunkCount | app.py:237 | there are ceil(len/n) pieces: the fewest pieces of length n that cover the text |
| Text.OffsetIsProduct | app.py:237 | the repeated-addition offset is `i * n` |
| Text.NormalizeWaid | app.py:95-102 | empty input is returned as is; a non-empty result never starts with '+' |
| Text.NormalizeWaidCanonical | app.py:95-102 | a digit-only WhatsApp id normalises to itself |
| Text.NormalizeWaidPlus | app.py:101 | "+d" normalises to the digits d |
| Text.NormalizeWaidTransport | app.py:98-101 | the transport form "whatsapp:+d" normalises to d |
| Text.BuildFlightLinks | app.py:632-641 | two links: the route links when origin and destination are both given (exactly the Google "Flights from o to d" query and the Kayak "o-d" path when no date is known), otherwise the two bare search pages |
| Text.DatedLinksExtendRouteLinks | app.py:633-638 | a dated link is the undated link of the same route with the date part appended |
| Text.KayakLinkDeterminesRoute | app.py:634 | with three-letter codes, equal Kayak links mean equal origins and destinations |
| DictKeys.Dedup | app.py:312 | same elements as the input, no duplicates, no longer than the input |
| DictKeys.FirstIndex | app.py:312 | the first position of an element |
| DictKeys.DedupFirstSeenOrder | app.py:312 | the distinct elements appear in the order of their first occurrence |
| DictKeys.DedupPrefix | app.py:312 | de-duplicating `a + b` keeps de-duplicated `a` as a prefix and adds only elements absent from `a` |
| Heuristic.DaysInMonth | app.py:308 | 28 to 31 days; 29 exactly for February of a Gregorian leap year |
| Heuristic.FormatDateRoundTrip | app.py:308-309 | a valid date formats to a "YYYY-MM-DD" string that reads back as the same date |
| Heuristic.FormatDateInjective | app.py:309 | distinct valid dates format to distinct strings |
| Heuristic.ValidDates | app.py:301-311 | only real calendar dates, each "YYYY-MM-DD", at most one per match |
| Heuristic.ValidDatesComplete | app.py:301-309 | every match that is a real date is reported |
| Heuristic.ValidDatesSkipsInvalid | app.py:308-311 | matches that are not real dates (month 13, 31 April, 29 February of a common year) are dropped |
| Heuristic.ValidDatesSound | app.py:305-309 | every reported date is the normalised form of a match that is a real date |
| Heuristic.ValidDatesExactly | app.py:302-311 | a string is reported exactly when some match is a real date that normalises to it |
| Heuristic.ValidDatesConcat | app.py:302-311 | the matches are handled one at a time: the result for `a + b` is the result for `a` followed by the result for `b` |
| Heuristic.ValidDatesDropInvalid | app.py:308-311 | removing a match that is not a real date leaves the result unchanged |
| Heuristic.ValidDatesOfInvalid | app.py:308-311 | a lone match that is not a real date gives nothing |
| Heuristic.ParseDatesExactly | app.py:299-312 | `parse_dates` reports a date exactly when a match of either pattern denotes it |
| Heuristic.AppendValidDates | app.py:302-311 | the inner loop appends exactly the valid normalised dates of one pattern |
| Heuristic.ParseDates | app.py:299-312 | the result is the de-duplicated valid dates of both patterns: all "YYYY-MM-DD" real dates, no duplicates, year-first matches before day-first ones |
| Heuristic.FormatTimeRoundTrip | app.py:319 | an in-range time formats to "HH:MM" and reads back as the same hour and minute |
| Heuristic.ValidTimes | app.py:316-319 | only in-range times, each "HH:MM" |
| Heuristic.ValidTimesComplete | app.py:318-319 | every in-range match is reported |
| Heuristic.ValidTimesSound | app.py:317-319 | every reported time is the padded form of an in-range match |
| Heuristic.ValidTimesExactly | app.py:316-319 | a string is reported exactly when some in-range match pads to it |
| Heuristic.ValidTimesConcat | app.py:316-319 | the matches are handled one at a time: the result for `a + b` is the result for `a` followed by the result for `b` |
| Heuristic.ValidTimesDropInvalid | app.py:318 | removing an out-of-range match leaves the result unchanged |
| Heuristic.ValidTimesOfInvalid | app.py:318 | a lone out-of-range match gives nothing |
| Heuristic.ParseTimes | app.py:314-320 | the de-duplicated in-range times, each "HH:MM", no duplicates, first-seen order |
| Heuristic.FirstHit | app.py:329-332 | the first table entry in a range that is named in the text, has a served code and differs from the excluded code; none before it qualifies |
| Heuristic.TokensTakePrecedence | app.py:325-327 | two or more bare codes give the first two as origin and destination |
| Heuristic.CityScanCodes | app.py:329-332 | the city scan yields only served codes, never a destination equal to the origin, never a destination without an origin |
| Heuristic.HomeDefaultUnreachable | app.py:333-334 | the home-airport default never changes the result |
| Heuristic.NoCityNoRoute | app.py:322-335 | fewer than two bare codes and no city name: neither origin nor destination |
| Heuristic.CityOrderNotTextOrder | app.py:329-332 | a text naming Bangkok departs from BKK, whichever city the text names first |
| Heuristic.ScanCities | app.py:329-332 | the CITY_MAP loop computes the table-order scan |
| Heuristic.DetectAirports | app.py:322-335 | the method computes bare codes first, then the city scan, then the home default |
| Heuristic.ToDtIso | app.py:436-439 | a start exactly when a date is given, always beginning with the date and "T" |
| Heuristic.ToDtIsoOfClock | app.py:438 | a two-digit clock in any decimal digits, with at most one final newline, is used unchanged |
| Heuristic.ToDtIsoOfParsedTime | app.py:438 | a time that `parse_times` produced is used unchanged |
| Heuristic.ToDtIsoDefault | app.py:439 | without a two-digit clock time the event starts at 09:00 |
| Indexer.First | app.py:451 | the first element, or None for an empty list |
| Indexer.NaiveFlight | app.py:446-454 | present exactly when a destination was found; carries the route, the first date and the first time, and nothing else |
| Indexer.ChooseFlights | app.py:458-462 | the extraction's flights when there are any; otherwise the heuristic flight exactly when it has destination and date, else nothing |
| Indexer.KeptFlights | app.py:465-466 | every stored flight has a destination and a departure date |
| Indexer.KeptFlightsExactly | app.py:465-466 | a flight is stored exactly when it is a candidate with destination and date |
| Indexer.KeptHotels | app.py:485-486 | every stored hotel has a check-in date |
| Indexer.KeptHotelsExactly | app.py:485-486 | a hotel is stored exactly when it is a candidate with a check-in date |
| Indexer.ExtractionSuppressesFallback | app.py:458-462 | a non-empty extraction list is used unchanged, even when none of its entries qualifies |
| Indexer.FallbackFlight | app.py:446-462 | with no extracted flights: at most one flight, present exactly when a destination and a real date were recognised, with the detected route and the first date |
| Indexer.FlightCallStart | app.py:478-482 | a flight's event is timed and starts at the departure date and its two-digit clock time, or at 09:00 |
| Indexer.HotelCallSpan | app.py:496-502 | a hotel's event is all-day, from check-in to check-out, or on the check-in day alone |
| Indexer.FlightSummaryStartsWithRoute | app.py:480 | the summary starts with the plane sign, the origin and the arrow |
| Indexer.FlightSummaryShowsRoute | app.py:480 | the summary contains "origin→dest" |
| Indexer.AddFlightRowsAppends | app.py:467-477 | earlier rows stay; new row k holds candidate k with the given waid, source file and excerpt |
| Indexer.AddHotelRowsAppends | app.py:487-495 | earlier rows stay; new row k holds hotel k with the given waid, source file and excerpt |
| Indexer.FlightTableOkRows | app.py:465-477 | in a well-formed flights table every row passed the gate and ids increase |
| Indexer.HotelTableOkRows | app.py:485-495 | in a well-formed hotels table every row has a check-in date and ids increase |
| Indexer.AddFlightRowsKeepsTableOk | app.py:465-477 | appending gated rows keeps the flights table well formed |
| Indexer.AddHotelRowsKeepsTableOk | app.py:485-495 | appending gated rows keeps the hotels table well formed |
| Indexer.FlightPassKeepsTablesOk | app.py:465-482 | the flight loop keeps both tables well formed |
| Indexer.HotelPassKeepsTablesOk | app.py:485-502 | the hotel loop keeps both tables well formed |
| Indexer.CandidateFlights | app.py:446-462 | the method computes the flights the indexer stores |
| Indexer.BookingStore.constructor | app.py:161-188 | empty tables, no calendar requests, and the given class of decimal digits |
| Indexer.BookingStore.IndexBookingFromText | app.py:442-503 | the tables grow by exactly the stored flights and hotels, in order, with one calendar request per stored row |
| Indexer.BookingStore.StoreCandidates | app.py:465-502 | the flight loop, then the hotel loop, keeping both tables well formed |
| Indexer.BookingStore.StoreFlights | app.py:465-482 | appends one row and one timed-event request per qualifying candidate; hotels untouched |
| Indexer.BookingStore.StoreFlight | app.py:467-482 | inserts one flight row and requests its event |
| Indexer.BookingStore.StoreHotels | app.py:485-502 | appends one row and one all-day request per qualifying hotel; flights untouched |
| Indexer.BookingStore.StoreHotel | app.py:487-502 | inserts one hotel row and requests its event |
| Snapshots.Safe | app.py:686-691 | a step from a value that is not a dictionary gives null |
| Snapshots.SafeLookup | app.py:686-691 | the loop of `safe` computes the path lookup |
| Snapshots.Group | app.py:693-695 | a dictionary with exactly the given keys, each the record's value at that path |
| Snapshots.SnapshotFromAviationstack | app.py:685-697 | a dictionary with exactly the five top-level keys |
| Snapshots.SnapshotShape | app.py:692-697 | every key of the shape is present whatever the record holds: flight 3, departure 6, arrival 7 |
| Snapshots.SnapshotLeaves | app.py:692-696 | each leaf is the record's value at its path, or null |
| Snapshots.SnapshotOfNothing | app.py:686-697 | a record that is not a dictionary, or is empty, gives the all-null snapshot |
| Snapshots.SnapshotDeterminedByPaths | app.py:685-697 | records that agree on the paths read give equal snapshots |
| WatchCommands.ParseTrack | app.py:647-654 | a track command exactly when a keyword occurs; a flight exactly when one was matched, upper-cased, with the matched date |
| WatchCommands.ParseUntrack | app.py:656-660 | an untrack target exactly when a keyword occurs: the upper-cased flight, or the all-flights marker |
| WatchCommands.UntrackTargetDistinct | app.py:656-660 | the all-flights marker is returned exactly when no flight code was matched, for any match that starts with a letter of the pattern |
| WatchCommands.FallbackCommandAsWritten | app.py:1062-1077 | a track keyword always makes the message a track command |
| WatchCommands.UntrackShadowedAsWritten | app.py:1062-1064 | every message containing "untrack" is taken for a track command |
| WatchCommands.UntrackExampleAsWritten | app.py:1062-1069 | "untrack LY81" subscribes to LY81 |
| WatchCommands.ContainsTail | app.py:649 | a text containing `a + b` contains `b` |
| WatchCommands.FallbackCommand | app.py:1062-1077 | with an untrack keyword the message cancels the matched flight, or all flights |
| WatchCommands.FallbackCommandAgrees | app.py:1062-1077 | without an untrack keyword the corrected dispatch equals the written one |
| WatchCommands.UntrackExample | app.py:1071-1077 | with the corrected dispatch "untrack LY81" cancels LY81 |
| FlightWatch.WatchTableOkRows | app.py:213-215 | ids are below the next id and strictly increase along the table |
| FlightWatch.WatchTableGrows | app.py:214 | a well-formed table stays well formed under a larger counter |
| FlightWatch.WatchTableUpdate | app.py:1259 | rewriting a row's other columns keeps the table well formed |
| FlightWatch.Remaining | app.py:1024-1025 | the DELETE never adds rows |
| FlightWatch.CountMatching | app.py:1024-1025 | the number of rows a cancel matches is at most the table size |
| FlightWatch.RemainingExactly | app.py:1024-1025 | a row survives exactly when it is not the user's (flight's) row; other users' rows always survive |
| FlightWatch.RemovedCount | app.py:1073-1074 | the cancel removes exactly the matching rows |
| FlightWatch.RemainingKeepsTableOk | app.py:1073-1074 | deleting rows keeps the table well formed |
| FlightWatch.RewriteNonEmpty | app.py:666 | at most one result per entry; with no empty entry, exactly one per entry, entry k rewritten |
| FlightWatch.RewriteNonEmptyConcat | app.py:666 | the comprehension handles the entries one at a time, in order |
| FlightWatch.RewriteNonEmptySkipsEmpty | app.py:666 | an empty entry anywhere contributes nothing |
| FlightWatch.RewriteNonEmptyExactly | app.py:666 | a string is produced exactly when it is the rewriting of some non-empty entry |
| FlightWatch.CcRecipients | app.py:666 | at most one recipient per CC entry; for a list without empty entries, as NOTIFY_CC_WAIDS is built at app.py:68, exactly one per entry, entry k rewritten as `_fw_send_to_all` does |
| FlightWatch.CcRecipientsSkipsEmpty | app.py:666 | an empty CC entry anywhere is skipped |
| FlightWatch.CcRecipientsExactly | app.py:666 | the recipients are exactly the rewritten non-empty CC entries |
| FlightWatch.SentTo | app.py:667-668 | sending to n recipients adds n messages |
| FlightWatch.SentToContents | app.py:667-668 | earlier messages stay; message k goes to recipient k with the body |
| FlightWatch.SendToOwnerFirst | app.py:666-668 | the owner first, then each other recipient in order, one message each |
| FlightWatch.NotifyContents | app.py:665-668 | one notification: the owner first, then each rewritten CC id in list order, one message each, after the earlier ones |
| FlightWatch.CcRecipientForms | app.py:666 | "d", "+d" and "whatsapp:+d" in the CC list all reach the WhatsApp id d |
| FlightWatch.FirstRecord | app.py:1249-1252 | the first element of a non-empty list; dictionaries, numbers, booleans and null have none (Python raises) |
| FlightWatch.Apply | app.py:1259-1260 | a change rewrites only the snapshot, hash and update time; otherwise the row is unchanged |
| FlightWatch.Outcomes | app.py:1242-1262 | one outcome per row |
| FlightWatch.OutcomesAt | app.py:1242-1262 | outcome i is row i's own poll |
| FlightWatch.PollAll | app.py:1242-1262 | the pass keeps the number of rows |
| FlightWatch.PollAllRows | app.py:1242-1262 | after the pass each row is that row polled once; none is added, dropped or moved |
| FlightWatch.Visit | app.py:1240 | step j visits a row of the table |
| FlightWatch.Polled | app.py:1242-1262 | part-way through, rows from the boundary on are polled and the others are untouched |
| FlightWatch.PolledStep | app.py:1242-1262 | polling the next row moves the boundary down by one |
| FlightWatch.PolledNone | app.py:1240 | before the first step the table is unchanged |
| FlightWatch.CountersStep | app.py:1245-1263 | each step adds one to `updated` on a change and one to `errors` on an error |
| FlightWatch.PassOrderDescending | app.py:1240 | the pass visits rows in strictly descending id order |
| FlightWatch.PollQuiet | app.py:1245-1262 | a fetch error counts as an error; empty data is skipped; an equal hash is no change; a change stores the new hash; no change leaves the row as it was |
| FlightWatch.PassCountsBounded | app.py:1242-1266 | `updated + errors` never exceeds the rows visited |
| FlightWatch.BroadcastExtends | app.py:667-668 | a broadcast adds one message per recipient after the earlier ones |
| FlightWatch.PassMessageCount | app.py:1253-1262 | the pass sends exactly (1 + CC recipients) messages per updated row and no others |
| FlightWatch.MessagesPerChange | app.py:1253-1262 | the same count with the notification size named |
| FlightWatch.PassKeepsOutbox | app.py:1242-1262 | the pass only appends to the outbox |
| FlightWatch.PassKeepsHashed | app.py:1252-1259 | every row's stored hash stays the hash of its stored snapshot |
| FlightWatch.PassTwiceQuiet | app.py:1252-1262 | a second pass with the provider answering as before changes no row, counts no update and sends nothing |
| FlightWatch.QuietPass | app.py:1253-1262 | a pass without changes sends nothing and counts no update |
| FlightWatch.RecommendationWrites | app.py:594-611 | a message with text always inserts one recommendation row |
| FlightWatch.CancelCountOverstated | app.py:1076 | as written, the cancel reply reports one more row than it deleted |
| FlightWatch.CancelCountExample | app.py:1027 | cancelling the one watched flight LY81 reports two rows |
| FlightWatch.WatchStore.constructor | app.py:666 | empty table and outbox, ids from 1, and the CC list rewritten as `_fw_send_to_all` rewrites it |
| FlightWatch.WatchStore.Subscribe | app.py:1018-1019 | appends one row with no snapshot and no hash; nothing else changes |
| FlightWatch.WatchStore.Cancel | app.py:1024-1025 | the table becomes the non-matching rows, and the number deleted is returned |
| FlightWatch.WatchStore.SubscribeFlight | app.py:1014-1020 | an empty flight code is refused; otherwise one row for the upper-cased code is appended |
| FlightWatch.WatchStore.CancelFlight | app.py:1022-1027 | deletes the user's rows for the upper-cased code, or all the user's rows, and reports the number deleted |
| FlightWatch.WatchStore.HandleWatchCommand | app.py:1062-1077 | untrack before track: cancels or subscribes as the command says and reports the rows actually deleted |
| FlightWatch.WatchStore.SendToAll | app.py:665-668 | the owner, then each CC recipient, receive the body; the table is untouched |
| FlightWatch.WatchStore.PollRow | app.py:1243-1262 | one row's fetch, projection and hash comparison; on a change the owner and CC recipients are notified and only that row is rewritten |
| FlightWatch.WatchStore.PollStep | app.py:1242-1265 | one iteration keeps the pass invariant: the table, outbox and counters are those after j + 1 steps |
| FlightWatch.WatchStore.CronFlightwatch | app.py:1237-1266 | the table becomes every row polled once, newest first; the outbox gains the notifications of the changed rows; `updated`, `errors` and `total` count changes, errors and rows |

## Left out

- HTTP routes, webhook framing and the Twilio signature check are not modelled; `send_whatsapp` is an outbox of (recipient, body) messages.
- Language-model calls (`ai_extract_booking_from_text`, `nl_route`, chat) are not modelled; their results are inputs (`Extraction`, and the `iata` and `date` parameters of the subscribe and cancel branches).
- Regular-expression scanning is not modelled; each pattern's matches are given in match order, as numbers where the code calls `int(...)`.
- `str.lower()` is not modelled; the lower-cased text is an input.
- `json.loads`, `json.dumps` and `hashlib.sha256` are left out. Provider data is a `Json` value, the hash is a function parameter, and `last_snapshot` holds the snapshot value instead of its JSON text. A `Json` number is one `real`, so the model does not tell Python's int 1 from the float 1.0; `json.dumps` writes them differently, so the hash at app.py:1253 can see a change where the model's snapshots are equal.
- `_fw_format_message` and the time-zone formatting it uses are left out; the message text is the parameter `render`.
- `_fw_fetch_aviationstack` (network, API key, timeouts) is left out; its answer is the parameter `fetch`, and an exception in it counts as `FetchError`, as the code's `except` does.
- The clock (`datetime.utcnow`, `CURRENT_TIMESTAMP`) and `uuid4` are left out; times are the parameter `now` and ids are consecutive numbers.
- SQLite, the file store, PDF text extraction, media download and content types are left out; tables are sequences in the two store classes.
- Google OAuth and calendar insertion are left out; a calendar attempt is recorded as a `CalendarRequest`, and `Call` gives the arguments it would pass.
- Reading NOTIFY_CC_WAIDS from the environment is left out; the store receives the list, and the constructor rewrites it once, as every `_fw_send_to_all` call would.
- The list branch, `flight_status`, the daily and weekly crons, `upcoming_flights_for_waid`, ICS export and chat history are left out: they sit outside the watch registry and the indexer.
- `store_recommendation_if_relevant` is modelled only by the number of rows it writes (`RecommendationWrites`), which the cancel reply counts; its tagging and its `float(lat)` failure are left out.
- Text.Upper: maps only the ASCII letters and leaves every other character as it is; Python's `str.upper` also maps other alphabets (and can lengthen a string, as "ß" becomes "SS"). Such letters do reach flight codes: the `iata` of the subscribe and cancel branches (app.py:1015, 1024) is any string, and IATA_RE (app.py:644) is case-insensitive and Unicode-aware, so it can match U+212A KELVIN SIGN or non-ASCII digits. The model's upper-cased codes are right only for ASCII text.
- Digit classes: `\d` in a str pattern matches every Unicode decimal digit. `to_dt_iso` receives that class as the parameter `isDecimal` (a field of `BookingStore`), since Dafny has no Unicode character database; `ToDtIsoOfParsedTime` assumes only that it contains '0'..'9'.
- Indexer.BookingStore.IndexBookingFromText: assumes `add_calendar_event` returns normally. Its `load_google_creds` (`json.loads` and `Credentials.from_authorized_user_info`, app.py:415) and `build` (app.py:426) run outside any `try`, so a failure there leaves the loop before `db.commit()` (app.py:503) and the rows inserted so far are not committed; a token refresh commits early through `save_google_token` (app.py:418, 410). The model stores every qualifying row and requests every event.
- Indexer.BookingStore.IndexBookingFromText: assumes every extraction entry is a dictionary whose values are strings or null. A truthy entry that is not a dictionary raises AttributeError at `fl.get` (app.py:466), and a `depart_time` that is not a string raises TypeError in `re.match` (app.py:438); the model's `Option<FlightCandidate>` cannot express either.
- Text.IsSpace: covers the characters `str.strip()` removes by default, as listed by Python's `str.isspace`.
- Heuristic.FormatDate: `%Y` is written as four zero-padded digits, the way CPython formats years below 1000 on Linux.
- FlightWatch.FirstRecord: `data[0]` on a non-empty string is its first character as a string value; the snapshot of it is then the all-null snapshot.

## Findings

| source | as written | input that shows it | evidently intended | confidence | as-written member | corrected member |
|---|---|---|---|---|---|---|
| app.py:1076 | the untrack reply reports `db.total_changes`. That counts every change on the request's connection, so it includes the recommendation row stored for the same message at app.py:977 (app.py:594-611). The cancel branch at app.py:1027 counts the same way. | "בטל LY81" from a user watching only LY81: the reply says 2 rows | the reply reports the number of rows the DELETE removed | not executed | FlightWatch.CancelCountOverstated | FlightWatch.WatchStore.HandleWatchCommand |
| app.py:1062-1071 | the track parser runs before the untrack parser. "track" is a substring of "untrack", so every "untrack …" message is a track command | "untrack LY81" subscribes to LY81 again instead of cancelling | an untrack keyword cancels the watch | not executed | WatchCommands.UntrackShadowedAsWritten | WatchCommands.FallbackCommand |

More on the first row:

* `FlightWatch.CancelReplyCountAsWritten` gives the written count.
* `FlightWatch.CancelCountExample` shows the input above reporting 2 rows.
* `FlightWatch.WatchStore.CancelFlight` and `FlightWatch.WatchStore.HandleWatchCommand` report `CountMatching`, the rows actually deleted.

More on the second row:

* `WatchCommands.FallbackCommandAsWritten` gives the written dispatch.
* `WatchCommands.UntrackExampleAsWritten` shows the input above subscribing.
* `WatchCommands.FallbackCommand` tries untrack first. `WatchCommands.FallbackCommandAgrees` proves it agrees with the written dispatch on every message without an untrack keyword. `WatchCommands.UntrackExample` shows the input cancelling.
* `FlightWatch.WatchStore.HandleWatchCommand` uses the corrected dispatch.
