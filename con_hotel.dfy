/** ConHotel (hotelcheck.py:152-262): the reservation-hash cache of
    searchExisting and the per-cycle parseResults with its alert
    de-duplication. The network, the HTML tokenizer, JSON decoding and
    html.unescape are supplied in an Env. */
module HotelCheck {
  import opened Wrappers
  import opened Errors
  import Text
  import opened Classifier
  import PasskeyParsing

  /** The requests ConHotel sends, named by what they ask for. */
  datatype Request =
    | SessionHome                                   // GET <base>/home
    | FindReservation(ackNum: string, lastName: string)  // POST <base>/reservation/find
    | LoadReservation(ackNum: string, hash: string)      // GET <base>/r/<ackNum>/<hash>
    | SearchRooms                                   // POST <base>/rooms/select/search
    | ListHotels                                    // GET <base>/list/hotels

  /** What send() returns: the response body, or the reason it failed
      (a URLError or a status other than 200). */
  datatype Reply = Body(text: string) | Failed(reason: string)

  /** The decoded reply of the reservation lookup: its 'ackNum' and 'hash'
      entries, each possibly absent. */
  datatype Reservation = Reservation(ackNum: Option<string>, hash: Option<string>)

  /** The collaborators the model does not look inside. */
  datatype Env = Env(
    send: Request -> Reply,
    tokenize: string -> seq<PasskeyParsing.HtmlEvent>,
    decodeHotels: string -> Option<seq<Hotel>>,
    decodeReservation: string -> Option<Reservation>,
    unescape: string -> string)

  /** The parsed command line as ConHotel reads it. */
  datatype Args = Args(criteria: Criteria, key: (string, string))

  /** What parseResults returns: (preamble, alerts), or (None, None). */
  datatype Outcome = Notify(preamble: string, alerts: seq<Room>) | Quiet

  /** The name send() puts in its error for each request. */
  function StepName(req: Request): string {
    match req
    case SessionHome => "Session request"
    case FindReservation(_, _) => "Finding reservation"
    case LoadReservation(_, _) => "Loading existing reservation"
    case SearchRooms => "Search"
    case ListHotels => "List"
  }

  function Send(env: Env, req: Request): Result<string, Error> {
    match env.send(req)
    case Body(text) => Ok(text)
    case Failed(reason) => Err(SendFailed(StepName(req), reason))
  }

  // The reservation hash (hotelcheck.py:169-202).

  /** The lookup run while the cache is empty: seed the session, find the
      reservation, check its acknowledgement number and take its hash. */
  function LookupHash(key: (string, string), env: Env): Result<string, Error> {
    match Send(env, SessionHome)
    case Err(e) => Err(e)
    case Ok(_) =>
      match Send(env, FindReservation(key.0, key.1))
      case Err(e) => Err(e)
      case Ok(body) =>
        match env.decodeReservation(body)
        case None => Err(ReservationUndecodable)
        case Some(found) =>
          if found.ackNum != Some(key.0) then Err(ReservationNotFound)
          else if found.hash.None? then Err(HashMissing)
          else Ok(found.hash.value)
  }

  /** The search that follows, with the cached hash. */
  function SearchWithHash(key: (string, string), hash: string, env: Env): Result<(), Error> {
    match Send(env, LoadReservation(key.0, hash))
    case Err(e) => Err(e)
    case Ok(_) =>
      match Send(env, SearchRooms)
      case Err(e) => Err(e)
      case Ok(_) => Ok(())
  }

  /** searchExisting: its result and the cache list afterwards. */
  function SearchExistingSpec(cache: seq<string>, key: (string, string), env: Env): (Result<(), Error>, seq<string>) {
    if cache == [] then
      match LookupHash(key, env)
      case Err(e) => (Err(e), cache)
      case Ok(hash) => (SearchWithHash(key, hash, env), cache + [hash])
    else (SearchWithHash(key, cache[0], env), cache)
  }

  /** The requests the lookup sends: it stops at the first failed send. */
  function LookupRequests(key: (string, string), env: Env): seq<Request> {
    if Send(env, SessionHome).Err? then [SessionHome]
    else [SessionHome, FindReservation(key.0, key.1)]
  }

  /** The requests the search with a hash sends. */
  function SearchRequests(key: (string, string), hash: string, env: Env): seq<Request> {
    if Send(env, LoadReservation(key.0, hash)).Err? then [LoadReservation(key.0, hash)]
    else [LoadReservation(key.0, hash), SearchRooms]
  }

  /** The requests one searchExisting call sends, in order. */
  function SearchExistingRequests(cache: seq<string>, key: (string, string), env: Env): seq<Request> {
    if cache == [] then
      LookupRequests(key, env) +
        match LookupHash(key, env)
        case Err(_) => []
        case Ok(hash) => SearchRequests(key, hash, env)
    else SearchRequests(key, cache[0], env)
  }

  /** A lookup request: the session seed or the reservation lookup. */
  predicate IsLookup(req: Request) {
    req.SessionHome? || req.FindReservation?
  }

  /** The lookup is sent only while the cache is empty: with a cached hash no
      lookup request goes out, and with an empty cache the lookup is the
      first thing sent. Every call ends with the search once a hash is known. */
  lemma LookupSentOnlyWhileEmpty(cache: seq<string>, key: (string, string), env: Env)
    ensures var sent := SearchExistingRequests(cache, key, env);
            && (cache != [] ==> forall i :: 0 <= i < |sent| ==> !IsLookup(sent[i]))
            && (cache == [] ==> 1 <= |sent| && sent[0] == SessionHome)
            && (cache == [] && LookupHash(key, env).Err? ==> forall i :: 0 <= i < |sent| ==> IsLookup(sent[i]))
            && (cache != [] ==> sent[0] == LoadReservation(key.0, cache[0]))
  {
    var sent := SearchExistingRequests(cache, key, env);
    if cache == [] {
      assert sent[0] == LookupRequests(key, env)[0];
    }
  }

  /** The cache is filled once, by a successful lookup, and from then on its
      hash is used as it is and the lookup is never sent again. */
  lemma HashCachedOnce(cache: seq<string>, key: (string, string), env: Env)
    requires |cache| <= 1
    ensures var (r, after) := SearchExistingSpec(cache, key, env);
            && |after| <= 1
            && (cache != [] ==> after == cache && r == SearchWithHash(key, cache[0], env))
            && (cache == [] && LookupHash(key, env).Err? ==> after == [] && r == Err(LookupHash(key, env).error))
            && (cache == [] && LookupHash(key, env).Ok? ==> after == [LookupHash(key, env).value])
  {
  }

  /** A reply whose acknowledgement number differs from the key's is
      rejected, and so is one without a hash; neither fills the cache. */
  lemma LookupChecks(key: (string, string), env: Env, body: string, found: Reservation)
    requires Send(env, SessionHome).Ok? && Send(env, FindReservation(key.0, key.1)) == Ok(body)
    requires env.decodeReservation(body) == Some(found)
    ensures found.ackNum != Some(key.0) ==> SearchExistingSpec([], key, env) == (Err(ReservationNotFound), [])
    ensures found.ackNum == Some(key.0) && found.hash.None? ==> SearchExistingSpec([], key, env) == (Err(HashMissing), [])
    ensures found.ackNum == Some(key.0) && found.hash.Some? ==> SearchExistingSpec([], key, env).1 == [found.hash.value]
  {
  }

  // The alert de-duplication (hotelcheck.py:247-262).

  /** {(alert['name'], alert['room']) for alert in alerts} */
  function AlertKeys(alerts: seq<Room>): set<(string, string)> {
    set a | a in alerts :: (a.name, a.room)
  }

  /** len(set(alert['name'] for alert in alerts)) */
  function NumHotels(alerts: seq<Room>): nat {
    |HotelNames(alerts)|
  }

  function HotelNoun(count: nat): string {
    if count == 1 then "hotel" else "hotels"
  }

  /** "%d %s near the ICC:" */
  function Preamble(alerts: seq<Room>): string {
    var n := NumHotels(alerts);
    Text.Decimal(n) + " " + HotelNoun(n) + " near the ICC:"
  }

  /** The outcome and the new lastAlerts, given this cycle's alerts. */
  function Dedup(lastAlerts: set<(string, string)>, alerts: seq<Room>): (Outcome, set<(string, string)>) {
    if alerts == [] then (Quiet, {})
    else if AlertKeys(alerts) == lastAlerts then (Quiet, lastAlerts)
    else (Notify(Preamble(alerts), alerts), AlertKeys(alerts))
  }

  /** One parseResults call: its result and lastAlerts afterwards. */
  function CycleSpec(lastAlerts: set<(string, string)>, args: Args, env: Env): (Result<Outcome, Error>, set<(string, string)>) {
    match Send(env, ListHotels)
    case Err(e) => (Err(e), lastAlerts)
    case Ok(page) =>
      match PasskeyParsing.Scan(PasskeyParsing.Unset, env.tokenize(page))
      case Err(e) => (Err(e), lastAlerts)
      case Ok(slot) =>
        match slot
        case Unset => (Err(ResultsNotFound), lastAlerts)
        // json is still True: fromJS(True) raises
        case Armed => (Err(MalformedResults), lastAlerts)
        case Captured(text) =>
          if text == "" then (Err(ResultsNotFound), lastAlerts)
          else match env.decodeHotels(text)
            case None => (Err(MalformedResults), lastAlerts)
            case Some(hotels) =>
              match Classify(hotels, args.criteria, env.unescape)
              case Err(e) => (Err(e), lastAlerts)
              case Ok(tally) =>
                var (outcome, next) := Dedup(lastAlerts, tally.alerts);
                (Ok(outcome), next)
  }

  /** A cycle notifies exactly when it has alerts whose (name, room) set
      differs from the remembered one; afterwards the remembered set is this
      cycle's set, empty when there are no alerts. */
  lemma DedupRule(lastAlerts: set<(string, string)>, alerts: seq<Room>)
    ensures Dedup(lastAlerts, alerts).0.Notify? <==> alerts != [] && AlertKeys(alerts) != lastAlerts
    ensures Dedup(lastAlerts, alerts).1 == AlertKeys(alerts)
    ensures Dedup(lastAlerts, alerts).0.Notify? ==> Dedup(lastAlerts, alerts).0.alerts == alerts
  {
  }

  /** Running the same cycle twice: the second one never notifies, and a
      failing cycle fails again without touching lastAlerts. */
  lemma RepeatIsQuiet(lastAlerts: set<(string, string)>, args: Args, env: Env)
    ensures var (first, after) := CycleSpec(lastAlerts, args, env);
            var (second, again) := CycleSpec(after, args, env);
            && (first.Ok? ==> second == Ok(Quiet) && again == after)
            && (first.Err? ==> second == first && after == lastAlerts && again == lastAlerts)
  {
  }

  /** A failing cycle leaves lastAlerts as it was; a missing results script
      is reported as "Failed to find search results". */
  lemma FailureKeepsMemory(lastAlerts: set<(string, string)>, args: Args, env: Env)
    ensures CycleSpec(lastAlerts, args, env).0.Err? ==> CycleSpec(lastAlerts, args, env).1 == lastAlerts
    ensures Send(env, ListHotels).Ok? &&
            PasskeyParsing.Scan(PasskeyParsing.Unset, env.tokenize(Send(env, ListHotels).value)) == Ok(PasskeyParsing.Unset) ==>
            CycleSpec(lastAlerts, args, env) == (Err(ResultsNotFound), lastAlerts)
  {
  }

  /** {alert['name'] for alert in alerts} */
  function HotelNames(alerts: seq<Room>): set<string> {
    set a | a in alerts :: a.name
  }

  lemma HotelNamesSnoc(alerts: seq<Room>, last: Room)
    ensures HotelNames(alerts + [last]) == HotelNames(alerts) + {last.name}
  {
    var all := alerts + [last];
    forall x | x in HotelNames(all) ensures x in HotelNames(alerts) + {last.name} {
      var a :| a in all && a.name == x;
      var i :| 0 <= i < |all| && all[i] == a;
      if i < |alerts| {
        assert alerts[i] == a;
      }
    }
    forall x | x in HotelNames(alerts) ensures x in HotelNames(all) {
      var a :| a in alerts && a.name == x;
      var i :| 0 <= i < |alerts| && alerts[i] == a;
      assert all[i] == a;
    }
    assert all[|alerts|] == last;
  }

  lemma {:induction false} NumHotelsBounds(alerts: seq<Room>)
    ensures NumHotels(alerts) <= |alerts|
    ensures alerts != [] ==> 1 <= NumHotels(alerts)
  {
    if alerts != [] {
      var n := |alerts| - 1;
      NumHotelsBounds(alerts[..n]);
      assert alerts == alerts[..n] + [alerts[n]];
      HotelNamesSnoc(alerts[..n], alerts[n]);
      assert NumHotels(alerts) == |HotelNames(alerts[..n]) + {alerts[n].name}|;
      assert NumHotels(alerts[..n]) == |HotelNames(alerts[..n])|;
    }
  }

  /** The preamble counts the distinct hotels among the alerts, between one
      and the number of alerts, and says "hotel" only for a count of one. */
  lemma PreambleCounts(alerts: seq<Room>)
    requires alerts != []
    ensures var n := NumHotels(alerts);
            && 1 <= n <= |alerts|
            && Preamble(alerts) == Text.Decimal(n) + " " + HotelNoun(n) + " near the ICC:"
            && Text.DecimalValue(Text.Decimal(n)) == n
            && (HotelNoun(n) == "hotel" <==> n == 1)
  {
    NumHotelsBounds(alerts);
    Text.DecimalRoundTrip(NumHotels(alerts));
  }

  class ConHotel {
    const args: Args
    /** The module-level lastAlerts. */
    var lastAlerts: set<(string, string)>
    /** The default-argument list `hash=[]` of searchExisting. */
    var hash: seq<string>
    /** Every request sent so far, oldest first. */
    ghost var sent: seq<Request>

    ghost predicate Valid()
      reads this
    {
      |hash| <= 1
    }

    constructor (args: Args)
      ensures this.args == args && lastAlerts == {} && hash == [] && sent == [] && Valid()
    {
      this.args := args;
      lastAlerts := {};
      hash := [];
      sent := [];
    }

    /** send(): one request, recorded in the log. */
    method SendRequest(env: Env, req: Request) returns (r: Result<string, Error>)
      modifies this`sent
      ensures r == Send(env, req)
      ensures sent == old(sent) + [req]
    {
      sent := sent + [req];
      r := Send(env, req);
    }

    /** searchExisting: look the hash up only while the cache is empty, then
        load the reservation and search. */
    method SearchExisting(env: Env) returns (r: Result<(), Error>)
      requires Valid()
      modifies this`hash, this`sent
      ensures Valid()
      ensures (r, hash) == SearchExistingSpec(old(hash), args.key, env)
      ensures old(hash) != [] ==> hash == old(hash)
      ensures sent == old(sent) + SearchExistingRequests(old(hash), args.key, env)
      ensures old(hash) != [] ==> forall i :: |old(sent)| <= i < |sent| ==> !IsLookup(sent[i])
    {
      LookupSentOnlyWhileEmpty(hash, args.key, env);
      if hash == [] {
        var home := SendRequest(env, SessionHome);
        if home.Err? {
          return Err(home.error);
        }
        var resp := SendRequest(env, FindReservation(args.key.0, args.key.1));
        if resp.Err? {
          return Err(resp.error);
        }
        var respData := env.decodeReservation(resp.value);
        if respData.None? {
          return Err(ReservationUndecodable);
        }
        if respData.value.ackNum != Some(args.key.0) {
          return Err(ReservationNotFound);
        }
        if respData.value.hash.None? {
          return Err(HashMissing);
        }
        hash := hash + [respData.value.hash.value];
      }
      var loaded := SendRequest(env, LoadReservation(args.key.0, hash[0]));
      if loaded.Err? {
        return Err(loaded.error);
      }
      var searched := SendRequest(env, SearchRooms);
      if searched.Err? {
        return Err(searched.error);
      }
      return Ok(());
    }

    /** parseResults: fetch and parse the hotel list, classify it, and decide
        from lastAlerts whether this cycle notifies. */
    method ParseResults(env: Env) returns (r: Result<Outcome, Error>)
      modifies this`lastAlerts, this`sent
      ensures (r, lastAlerts) == CycleSpec(old(lastAlerts), args, env)
      ensures r.Err? ==> lastAlerts == old(lastAlerts)
      ensures sent == old(sent) + [ListHotels]
    {
      var resp := SendRequest(env, ListHotels);
      if resp.Err? {
        return Err(resp.error);
      }
      var parser := PasskeyParsing.ParsePage(env.tokenize(resp.value));
      if parser.Err? {
        return Err(parser.error);
      }
      var json := parser.value;
      if json.Unset? || json == PasskeyParsing.Captured("") {
        return Err(ResultsNotFound);
      }
      if json.Armed? {
        return Err(MalformedResults);
      }
      var hotels := env.decodeHotels(json.text);
      if hotels.None? {
        return Err(MalformedResults);
      }
      var tally := ClassifyHotels(hotels.value, args.criteria, env.unescape);
      if tally.Err? {
        return Err(tally.error);
      }
      var alerts := tally.value.alerts;
      var alertHash: set<(string, string)>;
      if alerts != [] {
        alertHash := AlertKeys(alerts);
        if alertHash != lastAlerts {
          var preamble := Preamble(alerts);
          lastAlerts := alertHash;
          return Ok(Notify(preamble, alerts));
        }
      } else {
        alertHash := {};
      }
      lastAlerts := alertHash;
      return Ok(Quiet);
    }
  }
}
