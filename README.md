# hotelcheck: a Dafny model of the Passkey hotel-availability checker

`hotelcheck.py` polls the Passkey housing site for a convention, pulls the
hotel inventory out of the `<script id="last-search-results">` element of the
hotel-list page, turns every bookable block into a result row, picks the rows
that should raise an alert (close enough, cheap enough, name and room matching
the user's regexes), and notifies only when the set of alerted
(hotel, room) pairs differs from the one remembered from the previous search.
For users with a reservation it first looks up a reservation hash once and
caches it for the life of the process. The command line is checked by a few
argparse type functions and actions.

The model has one Dafny module per component:

- `PasskeyParsing` (passkey_parser.dfy): the `PasskeyParser` class with its
  `json` field (`Unset`/`Armed`/`Captured` for None/True/text), the two
  callbacks, a `Feed` loop over tokenizer events, and `Scan`, the function
  the loop is proved against. `Captures` describes the captured text without
  following the callbacks, and `ScanCaptures` proves the two agree.
- `Classifier` (classifier.dfy): hotels, blocks and inventory as decoded
  records; price, `closeEnough`, the skip rules; the nested loops of
  `parseResults` as `ClassifyHotels` (the hotels) and `ClassifyBlocks` (one
  hotel's blocks), proved against `Classify`, which is defined over the
  flattened (hotel, block) visiting order.
- `HotelCheck` (con_hotel.dfy): the `ConHotel` class holding `lastAlerts` and
  the cached reservation hash; `ParseResults` and `SearchExisting` proved
  against `CycleSpec` and `SearchExistingSpec`.
- `Arguments` (arguments.dfy): `type_day`, `type_distance`, the passkey-URL
  pattern written out as a matcher, and the argparse namespace with the URL and
  e-mail actions.
- `Text` (text.dfy): ASCII `lower()`, the substring test, `%d`.
- `Wrappers`, `Errors` (wrappers.dfy): Option/Result and one error
  constructor per exception the code raises.

The network, the HTML tokenizer, JSON decoding, `html.unescape`, `strptime`,
`float()` and the two compiled regexes are parameters (fields of `Env`,
`Criteria`, or function arguments): the model states what the code does with
their answers, whatever those answers are.

Three points about the code that the model keeps as written:

- The code keeps no added/removed diff between consecutive searches. Its
  only comparison across cycles is whether the set of (name, room) pairs
  equals `lastAlerts`. A notification carries every alert of the cycle.
- `lastAlerts` is also reassigned when nothing is notified. It becomes the
  empty set when a cycle has no alerts. It is reassigned the same set when
  that set is unchanged.
- The `--show-all` help text (hotelcheck.py:118) says miles-away rooms never
  trigger alerts. `closeEnough` holds whenever `show_all` is set, so with
  `--show-all` such rooms can alert (`ShowAllIsCloseEnough`).

## Model

| member | source | states |
|---|---|---|
| `PasskeyParsing.PasskeyParser.constructor` | hotelcheck.py:29-31 | a new parser's `json` is None |
| `PasskeyParsing.PasskeyParser.HandleStartTag` | hotelcheck.py:35-39 | `json` becomes True on an arming script tag and stays as it was on any other tag; a script tag whose last `id` attribute has no value makes the handler raise and changes nothing |
| `PasskeyParsing.PasskeyParser.HandleData` | hotelcheck.py:41-43 | a data event replaces True by its text and leaves None or captured text unchanged |
| `PasskeyParsing.PasskeyParser.Feed` | hotelcheck.py:32 | feeding a page delivers its events in order, and the parser's state is exactly `Scan` of them; the first raising handler ends the feed with its error |
| `PasskeyParsing.ParsePage` | hotelcheck.py:29-33 | constructing the parser on a page yields `Scan` of its events from None, or the handler's exception |
| `PasskeyParsing.StartTagEffect` | hotelcheck.py:35-39 | what handle_starttag does with a tag: arm on a script tag whose last `id` lowers to the results id, raise when that `id` has no value, otherwise nothing |
| `PasskeyParsing.Step` | hotelcheck.py:35-43 | the effect of one callback on `json`: an arming tag sets True, a raising tag fails, and data replaces True by its text and otherwise changes nothing |
| `PasskeyParsing.AttrGet` | hotelcheck.py:37-38 | `dict(attrs).get(name)` is the value of the last pair with that name, and is absent exactly when no pair has the name |
| `PasskeyParsing.ArmingTags` | hotelcheck.py:35-39 | a start tag arms `json` iff its name is "script" up to case and its last `id` attribute is "last-search-results" up to case |
| `PasskeyParsing.Scan` | hotelcheck.py:32-43 | the parser's `json` after feeding a page's events in order, one callback per event, stopping at the first handler that raises; the reference that `Feed` and `ParsePage` are proved equal to |
| `PasskeyParsing.ScanCaptures` | hotelcheck.py:35-43 | when no handler raises, the final `json` is the first data after the last arming tag; it is True if that tag has no data after it, and None if no tag armed it |
| `PasskeyParsing.ScanFailsIff` | hotelcheck.py:37-38 | parsing a page fails iff some script tag carries a valueless `id` as its last `id` attribute, and then with that error |
| `Text.LowerEqualsIff` | hotelcheck.py:36-38 | `lower()` of a string equals a lower-case target iff the string spells the target up to case |
| `Text.ContainsIff` | hotelcheck.py:222 | the `in` test on strings holds iff the marker occurs at some position |
| `Text.Decimal` | hotelcheck.py:254 | `%d` writes at least one digit and no leading zero |
| `Text.DecimalRoundTrip` | hotelcheck.py:254 | reading back the digits `%d` wrote gives the original count |
| `Classifier.Price` | hotelcheck.py:226 | a row's price is `int()` of the sum of every inventory rate |
| `Classifier.RoomOf` | hotelcheck.py:222-229 | the row record: unescaped hotel name, "Skywalk" when the message holds the marker and otherwise the distance with its unit name ('???' for unknown codes), the price, and the unescaped block name |
| `Classifier.CloseEnough` | hotelcheck.py:234-236 | close enough when the unit is yards, meters or kilometers; or blocks within the limit or with no limit; or 'connected' is required and the hotel is connected; or show_all is set |
| `Classifier.Truncate` | hotelcheck.py:226 | `int()` truncates toward zero: the result is within one of its argument, on the side of zero |
| `Classifier.PriceSumsEveryRate` | hotelcheck.py:226 | the price is the truncated sum of every line item's rate, so splitting a block's items adds their rate totals |
| `Classifier.MinAvailable` | hotelcheck.py:230 | `min()` of the available counts is one of them and no larger than any |
| `Classifier.ClassifyHotels` | hotelcheck.py:216-242 | the nested loops return exactly `Classify`: an error when a block not skipped for distance has an empty inventory, otherwise the rows and the alerts in visiting order |
| `Classifier.ClassifyBlocks` | hotelcheck.py:217-242 | the inner loop over one hotel's blocks extends the rows and alerts of the hotels before it exactly as `Classify` does over those hotels plus this one, or fails when one of its visited blocks has an empty inventory |
| `Classifier.Eligible` | hotelcheck.py:237-239 | a row is an alert when it is close enough, its price is within the budget, and the hotel and room regexes both match |
| `Classifier.Classify` | hotelcheck.py:216-242 | the search's rows and alerts in visiting order, or the `min()` error when some visited block has an empty inventory; the reference that the nested loops are proved equal to |
| `Classifier.RowsMembership` | hotelcheck.py:219-231 | a room is a row iff some shown (hotel, block) pair produces it: not skipped for miles, and not sold out |
| `Classifier.AlertsMembership` | hotelcheck.py:234-240 | a room is an alert iff some shown pair that is close enough, within budget and matched by both regexes produces it |
| `Classifier.AlertsAreRows` | hotelcheck.py:239-242 | every alert is also a row, and alerts keep the rows' order |
| `Classifier.ClassifyContents` | hotelcheck.py:216-242 | a successful search's rows hold no sold-out block and no miles-away block unless show_all, and its alerts are exactly the shown rows passing closeEnough, cheapEnough and regexMatch |
| `Classifier.ShowAllIsCloseEnough` | hotelcheck.py:219-220 | with show_all nothing is skipped for distance and every hotel is close enough |
| `Classifier.NoLimitBlocksAreClose` | hotelcheck.py:235 | without a maximum distance every hotel measured in blocks is close enough |
| `Classifier.ScenarioNearbyRoomAlerts` | hotelcheck.py:216-242 | a hotel two blocks away with one available $100 item, a $150 budget and a five-block limit gives one row that is also an alert |
| `Classifier.ScenarioSoldOutExcluded` | hotelcheck.py:230-231 | the same hotel with its only item sold out gives no row and no alert |
| `Arguments.TypeDay` | hotelcheck.py:54-61 | `type_day` returns its argument unchanged iff it parses to a date between 2020-07-25 and 2020-08-04 inclusive; otherwise it raises the not-a-date or outside-window error |
| `Arguments.WindowDays` | hotelcheck.py:15 | the window is exactly July 25-31 and August 1-4, 2020 |
| `Arguments.TypeDistance` | hotelcheck.py:64-70 | 'connected' is kept as is, any other argument must parse as a float, else invalid-float error |
| `Arguments.MatchPasskeyUrl` | hotelcheck.py:82 | `re.match` of the passkey-URL pattern and its two groups, written out character class by character class |
| `Arguments.MatchAcceptsPasskeyUrls` | hotelcheck.py:82-84 | every URL of the pattern is accepted, an optional final newline included, and the groups are its key and auth token |
| `Arguments.MatchOnlyPasskeyUrls` | hotelcheck.py:82-86 | whatever is accepted has the pattern's shape: both dots any character but newline, an 8+4 key, 1-64 lower-case hex, at most one final newline |
| `Arguments.Namespace.PasskeyUrlAction` | hotelcheck.py:81-86 | a matching URL stores (key, auth); anything else raises invalid-passkey-url and stores nothing |
| `Arguments.Namespace.EmailAction` | hotelcheck.py:95-100 | the alert list is created when absent and gains one ('email', host, from, to) entry at its end |
| `HotelCheck.ConHotel.constructor` | hotelcheck.py:152-154 | a fresh checker remembers no alerts (the global `lastAlerts = set()` of line 138), has no cached hash (the default `hash=[]` of line 169) and has sent no request |
| `HotelCheck.ConHotel.SendRequest` | hotelcheck.py:142-149 | one request goes out: its outcome is `Send`, and it is appended to the request log |
| `HotelCheck.Send` | hotelcheck.py:142-149 | a failed request becomes an error naming the request's step and the reason; a reply passes its body on |
| `HotelCheck.LookupHash` | hotelcheck.py:172-187 | the lookup: seed the session, find the reservation, decode the reply, reject a wrong acknowledgement number, then a missing hash, else yield the hash |
| `HotelCheck.LookupSentOnlyWhileEmpty` | hotelcheck.py:172-179 | with a cached hash no lookup request is sent; with an empty cache the session seed is sent first, and a failed lookup sends nothing else |
| `HotelCheck.ConHotel.SearchExisting` | hotelcheck.py:169-202 | sends the lookup requests only while the cache is empty (the request log gains no lookup when a hash is cached) and appends at most one hash, so the cache holds at most one hash and a cached hash is never replaced; the result, cache and requests sent are `SearchExistingSpec` and `SearchExistingRequests` |
| `HotelCheck.SearchExistingSpec` | hotelcheck.py:169-202 | a cached hash is used for the search and kept; with an empty cache the lookup's error is returned and the cache stays empty, or the search uses the looked-up hash and it is cached |
| `HotelCheck.HashCachedOnce` | hotelcheck.py:169-187 | a non-empty cache is used unchanged; a failed lookup leaves it empty and returns the lookup's error; a successful one stores exactly the looked-up hash |
| `HotelCheck.LookupChecks` | hotelcheck.py:183-187 | a reply with the wrong acknowledgement number raises "Reservation not found", one without a hash raises "Hash missing"; neither fills the cache |
| `HotelCheck.ConHotel.ParseResults` | hotelcheck.py:204-262 | result and new `lastAlerts` are `CycleSpec`; a failing cycle leaves `lastAlerts` unchanged; the only request sent is the hotel list |
| `HotelCheck.FailureKeepsMemory` | hotelcheck.py:205-208 | any failure leaves `lastAlerts` as it was, and a page with no results script raises "Failed to find search results" |
| `HotelCheck.AlertKeys` | hotelcheck.py:249 | `alertHash`: the set of (name, room) pairs of the alerts |
| `HotelCheck.CycleSpec` | hotelcheck.py:204-262 | one search cycle: a failed list request, a raising parser, missing or empty results, a still-True `json`, undecodable results and an empty inventory give errors and keep `lastAlerts`; otherwise the classified alerts go through `Dedup` |
| `HotelCheck.Dedup` | hotelcheck.py:247-262 | with no alerts: no notification and an empty `lastAlerts`; with alerts whose (name, room) set equals `lastAlerts`: no notification; otherwise (preamble, alerts) and that set remembered |
| `HotelCheck.DedupRule` | hotelcheck.py:247-262 | a cycle notifies iff it has alerts whose (name, room) set differs from `lastAlerts`, with all of its alerts; afterwards `lastAlerts` is that set (empty without alerts) |
| `HotelCheck.RepeatIsQuiet` | hotelcheck.py:247-262 | running the same cycle twice: the second run never notifies and leaves `lastAlerts` as the first left it; a failing cycle fails again identically |
| `HotelCheck.NumHotelsBounds` | hotelcheck.py:253 | the number of distinct hotel names is at most the number of alerts, and at least one when there are alerts |
| `HotelCheck.Preamble` | hotelcheck.py:253-254 | "%d %s near the ICC:" with the number of distinct hotel names and "hotel" or "hotels" |
| `HotelCheck.PreambleCounts` | hotelcheck.py:253-254 | the preamble is "<n> hotel(s) near the ICC:" with n the distinct hotel count, between 1 and the number of alerts, and the word is "hotel" iff n is 1 |

## Left out

- conbot.py is not part of this model. It is a chat-bot front end made of event-loop and subprocess I/O.
- `send` and the cookie-jar opener are left out. `Env.send` is a pure function from the request to a body or a failure reason, so cookie state and differing answers to repeated requests are not modelled. Which requests go out is recorded in the ghost log `ConHotel.sent`. The request URLs and bodies are not modelled either: search parameters, JSON and form encoding.
- `searchNew` (hotelcheck.py:156-167) is left out. It is two `send` calls with no logic of its own.
- HTML tokenizing, the UTF-8 decode of the page and `HTMLParser.close()` are left out. The parser is fed the callback events directly.
- JSON decoding is abstracted as `Env.decodeHotels` and `Env.decodeReservation`. Decoded hotels are assumed to have every key with the right type, so a KeyError or TypeError on malformed records is not modelled. `messageMap` is modelled as an optional string. The reservation's `ackNum` is compared as a string.
- The regex engine (`re.search` with IGNORECASE), `type_regex` and `html.unescape` are supplied as functions and not modelled.
- Floating point is left out. Rates, distances, the budget and the limit are reals, so rounding, NaN and infinity are not modelled.
- `Text.Lower` only lower-cases ASCII. This is exact for the two targets it is compared with, because no other character lower-cases to one of their letters.
- `strptime` and `float()` are supplied as functions. Date parsing is not modelled.
- Text formatting is left out: the `"%4.1f %s"` distance, the row layout, the printed results table, the timestamps and every `print`. Rows are kept as `Room` records, and a distance is its value and unit name.
- Argparse wiring, `SurnameAction` and the other alert options are left out, as is the import-time `parse_args`.
- `HotelCheck.ConHotel.SearchExisting`: in the code the hash list is a default argument shared by every `ConHotel`, and `lastAlerts` is a module global. The model keeps both on the one `ConHotel` object.
