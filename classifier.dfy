/** The classification half of ConHotel.parseResults (hotelcheck.py:216-242):
    which blocks become result rows, what each row holds, and which rows are
    alerts. Hotels arrive already decoded from the results JSON; the two
    user regexes and html.unescape are supplied as functions. */
module Classifier {
  import opened Wrappers
  import opened Errors
  import Text

  /** One inventory line item of a block. */
  datatype Inventory = Inventory(rate: real, available: int)

  /** A bookable room type of a hotel. */
  datatype Block = Block(name: string, inventory: seq<Inventory>)

  /** One hotel object of the results JSON; messageMap may be null. */
  datatype Hotel = Hotel(
    name: string,
    distanceFromEvent: real,
    distanceUnit: int,
    messageMap: Option<string>,
    blocks: seq<Block>)

  /** --max-distance: absent, the word 'connected', or a number. */
  datatype MaxDistance = NoLimit | Connected | Within(limit: real)

  /** The search criteria parseResults reads from args. */
  datatype Criteria = Criteria(
    maxDistance: MaxDistance,
    budget: real,
    hotelRegex: string -> bool,   // hotel_regex.search(...) is not None
    roomRegex: string -> bool,    // room_regex.search(...) is not None
    showAll: bool)

  /** The 'distance' entry of a row: "Skywalk", or "%4.1f %s" of the distance
      and the unit's name (the text layout is not modelled). */
  datatype Distance = Skywalk | Measured(value: real, unit: string)

  /** The simpleHotel dict built per block. */
  datatype Room = Room(name: string, distance: Distance, price: int, room: string)

  /** The displayed rows and the alerts of one search. */
  datatype Tally = Tally(rows: seq<Room>, alerts: seq<Room>)

  const Blocks := 1
  const Yards := 2
  const Miles := 3
  const Meters := 4
  const Kilometers := 5

  const SkywalkMarker := "Skywalk to ICC"

  /** distanceUnits.get(unit, '???') */
  function UnitName(unit: int): string {
    if unit == Blocks then "blocks"
    else if unit == Yards then "yards"
    else if unit == Miles then "miles"
    else if unit == Meters then "meters"
    else if unit == Kilometers then "kilometers"
    else "???"
  }

  /** 'Skywalk to ICC' in (hotel['messageMap'] or '') */
  predicate IsConnected(h: Hotel) {
    Text.Contains(h.messageMap.GetOr(""), SkywalkMarker)
  }

  /** sum(inv['rate'] for inv in inventory), starting from 0. */
  function SumRates(inventory: seq<Inventory>): real {
    if inventory == [] then 0.0
    else SumRates(inventory[..|inventory| - 1]) + inventory[|inventory| - 1].rate
  }

  /** Python's int() of a float: truncation toward zero. */
  function Truncate(x: real): (n: int)
    ensures 0.0 <= x ==> n as real <= x < n as real + 1.0
    ensures x < 0.0 ==> n as real - 1.0 < x <= n as real
  {
    if 0.0 <= x then x.Floor else -((-x).Floor)
  }

  /** The 'price' of a row. */
  function Price(inventory: seq<Inventory>): int {
    Truncate(SumRates(inventory))
  }

  lemma {:induction false} SumRatesAppend(a: seq<Inventory>, b: seq<Inventory>)
    ensures SumRates(a + b) == SumRates(a) + SumRates(b)
    decreases |b|
  {
    if b != [] {
      var n := |b| - 1;
      assert (a + b)[..|a + b| - 1] == a + b[..n];
      SumRatesAppend(a, b[..n]);
    } else {
      assert a + b == a;
    }
  }

  /** The price sums every line item's rate, truncated toward zero: the
      price of a block made of two parts is the truncated sum of both parts'
      rate totals, not the rate of either part. */
  lemma PriceSumsEveryRate(a: seq<Inventory>, b: seq<Inventory>)
    ensures Price(a + b) == Truncate(SumRates(a) + SumRates(b))
    ensures 0.0 <= SumRates(a + b) ==> Price(a + b) as real <= SumRates(a) + SumRates(b) < Price(a + b) as real + 1.0
  {
    SumRatesAppend(a, b);
  }

  /** min(inv['available'] for inv in inventory) */
  function MinAvailable(inventory: seq<Inventory>): (m: int)
    requires inventory != []
    ensures exists i :: 0 <= i < |inventory| && inventory[i].available == m
    ensures forall i :: 0 <= i < |inventory| ==> m <= inventory[i].available
  {
    if |inventory| == 1 then inventory[0].available
    else
      var rest := MinAvailable(inventory[1..]);
      assert forall i :: 1 <= i < |inventory| ==> inventory[i] == inventory[1..][i - 1];
      if inventory[0].available <= rest then inventory[0].available else rest
  }

  /** A (hotel, block) pair, in the order the two loops visit them. */
  datatype Offer = Offer(hotel: Hotel, block: Block)

  function HotelOffers(h: Hotel): (os: seq<Offer>)
    ensures |os| == |h.blocks|
    ensures forall j :: 0 <= j < |os| ==> os[j] == Offer(h, h.blocks[j])
  {
    seq(|h.blocks|, j requires 0 <= j < |h.blocks| => Offer(h, h.blocks[j]))
  }

  function Offers(hotels: seq<Hotel>): seq<Offer> {
    if hotels == [] then []
    else Offers(hotels[..|hotels| - 1]) + HotelOffers(hotels[|hotels| - 1])
  }

  /** Blocks of hotels miles away are skipped before anything is computed. */
  predicate MilesSkipped(h: Hotel, c: Criteria) {
    h.distanceUnit == Miles && !c.showAll
  }

  /** The block reaches min() with nothing in it, which raises. */
  predicate Raises(o: Offer, c: Criteria) {
    !MilesSkipped(o.hotel, c) && o.block.inventory == []
  }

  /** The block becomes a displayed row. */
  predicate Shown(o: Offer, c: Criteria) {
    !MilesSkipped(o.hotel, c) && o.block.inventory != [] && MinAvailable(o.block.inventory) != 0
  }

  function RoomOf(o: Offer, unescape: string -> string): Room {
    Room(
      unescape(o.hotel.name),
      if IsConnected(o.hotel) then Skywalk
      else Measured(o.hotel.distanceFromEvent, UnitName(o.hotel.distanceUnit)),
      Price(o.block.inventory),
      unescape(o.block.name))
  }

  /** closeEnough (hotelcheck.py:234-236). */
  predicate CloseEnough(h: Hotel, c: Criteria) {
    || h.distanceUnit == Yards || h.distanceUnit == Meters || h.distanceUnit == Kilometers
    || (h.distanceUnit == Blocks &&
        (c.maxDistance.NoLimit? || (c.maxDistance.Within? && h.distanceFromEvent <= c.maxDistance.limit)))
    || (c.maxDistance.Connected? && IsConnected(h))
    || c.showAll
  }

  /** closeEnough and cheapEnough and regexMatch. */
  predicate Eligible(o: Offer, c: Criteria, unescape: string -> string) {
    var room := RoomOf(o, unescape);
    CloseEnough(o.hotel, c) && room.price as real <= c.budget &&
    c.hotelRegex(room.name) && c.roomRegex(room.room)
  }

  predicate AnyRaises(os: seq<Offer>, c: Criteria) {
    exists k :: 0 <= k < |os| && Raises(os[k], c)
  }

  function Rows(os: seq<Offer>, c: Criteria, unescape: string -> string): seq<Room> {
    if os == [] then []
    else
      var last := os[|os| - 1];
      Rows(os[..|os| - 1], c, unescape) + if Shown(last, c) then [RoomOf(last, unescape)] else []
  }

  function Alerts(os: seq<Offer>, c: Criteria, unescape: string -> string): seq<Room> {
    if os == [] then []
    else
      var last := os[|os| - 1];
      Alerts(os[..|os| - 1], c, unescape) +
        if Shown(last, c) && Eligible(last, c, unescape) then [RoomOf(last, unescape)] else []
  }

  /** The outcome of the two loops over all hotels: min() of an empty
      inventory raises, otherwise every shown block is a row and every
      eligible shown block an alert, both in visiting order. */
  function Classify(hotels: seq<Hotel>, c: Criteria, unescape: string -> string): Result<Tally, Error> {
    var os := Offers(hotels);
    if AnyRaises(os, c) then Err(EmptyInventory)
    else Ok(Tally(Rows(os, c, unescape), Alerts(os, c, unescape)))
  }

  /** The nested loops of parseResults, appending to `alerts` and to the
      displayed results. */
  method ClassifyHotels(hotels: seq<Hotel>, c: Criteria, unescape: string -> string) returns (r: Result<Tally, Error>)
    ensures r == Classify(hotels, c, unescape)
  {
    var rows: seq<Room> := [];
    var alerts: seq<Room> := [];
    for i := 0 to |hotels|
      invariant !AnyRaises(Offers(hotels[..i]), c)
      invariant rows == Rows(Offers(hotels[..i]), c, unescape)
      invariant alerts == Alerts(Offers(hotels[..i]), c, unescape)
    {
      assert hotels[..i + 1][..i] == hotels[..i];
      var visited := ClassifyBlocks(hotels[i], c, unescape, Offers(hotels[..i]), rows, alerts);
      if visited.Err? {
        OffersPrefix(hotels, i + 1);
        RaisesInPrefix(Offers(hotels[..i + 1]), Offers(hotels), c);
        return Err(visited.error);
      }
      rows, alerts := visited.value.rows, visited.value.alerts;
    }
    assert hotels[..|hotels|] == hotels;
    return Ok(Tally(rows, alerts));
  }

  /** The inner loop over one hotel's blocks, continuing the rows and alerts
      of the hotels before it. */
  method ClassifyBlocks(hotel: Hotel, c: Criteria, unescape: string -> string,
                        ghost done: seq<Offer>, rows0: seq<Room>, alerts0: seq<Room>)
    returns (r: Result<Tally, Error>)
    requires !AnyRaises(done, c)
    requires rows0 == Rows(done, c, unescape) && alerts0 == Alerts(done, c, unescape)
    ensures var all := done + HotelOffers(hotel);
            r == if AnyRaises(all, c) then Err(EmptyInventory)
                 else Ok(Tally(Rows(all, c, unescape), Alerts(all, c, unescape)))
  {
    var rows, alerts := rows0, alerts0;
    ghost var here := HotelOffers(hotel);
    assert done + here[..0] == done;
    for j := 0 to |hotel.blocks|
      invariant !AnyRaises(done + here[..j], c)
      invariant rows == Rows(done + here[..j], c, unescape)
      invariant alerts == Alerts(done + here[..j], c, unescape)
    {
      var block := hotel.blocks[j];
      ghost var o := Offer(hotel, block);
      ghost var seen := done + here[..j];
      SnocOffer(done, here, j);
      ExtendTally(seen, o, c, unescape);
      // Blocks of hotels miles away are skipped unless show_all.
      if !(hotel.distanceUnit == Miles && !c.showAll) {
        var connected := Text.Contains(hotel.messageMap.GetOr(""), SkywalkMarker);
        var simpleHotel := Room(
          unescape(hotel.name),
          if connected then Skywalk else Measured(hotel.distanceFromEvent, UnitName(hotel.distanceUnit)),
          Price(block.inventory),
          unescape(block.name));
        assert simpleHotel == RoomOf(o, unescape) by { assert connected == IsConnected(hotel); }
        if block.inventory == [] {
          // min() of an empty inventory raises
          assert (seen + [o])[|seen|] == o;
          RaisesInPrefix(seen + [o], done + here, c);
          return Err(EmptyInventory);
        }
        // Sold-out blocks are skipped.
        if MinAvailable(block.inventory) != 0 {
          var closeEnough := CloseEnough(hotel, c);
          var cheapEnough := simpleHotel.price as real <= c.budget;
          var regexMatch := c.hotelRegex(simpleHotel.name) && c.roomRegex(simpleHotel.room);
          assert (closeEnough && cheapEnough && regexMatch) == Eligible(o, c, unescape);
          if closeEnough && cheapEnough && regexMatch {
            alerts := alerts + [simpleHotel];
          }
          rows := rows + [simpleHotel];
        }
      }
    }
    assert here[..|hotel.blocks|] == here;
    return Ok(Tally(rows, alerts));
  }

  lemma SnocOffer(done: seq<Offer>, here: seq<Offer>, j: nat)
    requires j < |here|
    ensures done + here[..j + 1] == (done + here[..j]) + [here[j]]
  {
    assert here[..j + 1] == here[..j] + [here[j]];
  }

  /** One more visited block extends the rows and the alerts by at most that
      block, and the search raises once any visited block raises. */
  lemma ExtendTally(seen: seq<Offer>, o: Offer, c: Criteria, unescape: string -> string)
    ensures Rows(seen + [o], c, unescape) ==
            Rows(seen, c, unescape) + if Shown(o, c) then [RoomOf(o, unescape)] else []
    ensures Alerts(seen + [o], c, unescape) ==
            Alerts(seen, c, unescape) + if Shown(o, c) && Eligible(o, c, unescape) then [RoomOf(o, unescape)] else []
    ensures AnyRaises(seen + [o], c) <==> AnyRaises(seen, c) || Raises(o, c)
  {
    var so := seen + [o];
    assert so[..|seen|] == seen;
    assert so[|seen|] == o;
    assert forall k :: 0 <= k < |seen| ==> so[k] == seen[k];
  }

  lemma {:induction false} OffersPrefix(hotels: seq<Hotel>, i: nat)
    requires i <= |hotels|
    ensures Offers(hotels[..i]) <= Offers(hotels)
    decreases |hotels| - i
  {
    if i < |hotels| {
      OffersPrefix(hotels, i + 1);
      assert hotels[..i + 1][..i] == hotels[..i];
    } else {
      assert hotels[..i] == hotels;
    }
  }

  /** A raising block of a prefix of the visit is a raising block of the whole visit. */
  lemma RaisesInPrefix(seen: seq<Offer>, all: seq<Offer>, c: Criteria)
    requires seen <= all && AnyRaises(seen, c)
    ensures AnyRaises(all, c)
  {
    var k :| 0 <= k < |seen| && Raises(seen[k], c);
    assert all[k] == seen[k];
  }

  // What the specification functions promise.

  lemma {:induction false} RowsMembership(os: seq<Offer>, c: Criteria, unescape: string -> string, room: Room)
    ensures room in Rows(os, c, unescape) <==>
            exists k :: 0 <= k < |os| && Shown(os[k], c) && RoomOf(os[k], unescape) == room
  {
    if os != [] {
      var n := |os| - 1;
      RowsMembership(os[..n], c, unescape, room);
      assert forall k :: 0 <= k < n ==> os[..n][k] == os[k];
      if room in Rows(os[..n], c, unescape) {
        var k :| 0 <= k < n && Shown(os[..n][k], c) && RoomOf(os[..n][k], unescape) == room;
        assert Shown(os[k], c) && RoomOf(os[k], unescape) == room;
      }
    }
  }

  lemma {:induction false} AlertsMembership(os: seq<Offer>, c: Criteria, unescape: string -> string, room: Room)
    ensures room in Alerts(os, c, unescape) <==>
            exists k :: 0 <= k < |os| && Shown(os[k], c) && Eligible(os[k], c, unescape) &&
                        RoomOf(os[k], unescape) == room
  {
    if os != [] {
      var n := |os| - 1;
      AlertsMembership(os[..n], c, unescape, room);
      assert forall k :: 0 <= k < n ==> os[..n][k] == os[k];
      if room in Alerts(os[..n], c, unescape) {
        var k :| 0 <= k < n && Shown(os[..n][k], c) && Eligible(os[..n][k], c, unescape) &&
                 RoomOf(os[..n][k], unescape) == room;
        assert Shown(os[k], c) && Eligible(os[k], c, unescape) && RoomOf(os[k], unescape) == room;
      }
    }
  }

  /** xs can be obtained from ys by deleting elements. */
  predicate IsSubsequence<T(==)>(xs: seq<T>, ys: seq<T>)
    decreases |ys|
  {
    if xs == [] then true
    else if ys == [] then false
    else if xs[|xs| - 1] == ys[|ys| - 1] then IsSubsequence(xs[..|xs| - 1], ys[..|ys| - 1])
    else IsSubsequence(xs, ys[..|ys| - 1])
  }

  lemma {:induction false} SubsequenceOfLonger<T>(xs: seq<T>, ys: seq<T>, y: T)
    requires IsSubsequence(xs, ys)
    ensures IsSubsequence(xs, ys + [y])
    decreases |ys|, 1
  {
    var ysy := ys + [y];
    assert ysy[..|ysy| - 1] == ys;
    if xs != [] && xs[|xs| - 1] == y {
      SubsequenceDropLast(xs, ys);
    }
  }

  lemma {:induction false} SubsequenceDropLast<T>(xs: seq<T>, ys: seq<T>)
    requires xs != [] && IsSubsequence(xs, ys)
    ensures IsSubsequence(xs[..|xs| - 1], ys)
    decreases |ys|, 0
  {
    var n := |xs| - 1;
    if ys != [] {
      var m := |ys| - 1;
      if xs[n] == ys[m] {
        SubsequenceOfLonger(xs[..n], ys[..m], ys[m]);
        assert ys[..m] + [ys[m]] == ys;
      } else {
        SubsequenceDropLast(xs, ys[..m]);
        SubsequenceOfLonger(xs[..n], ys[..m], ys[m]);
        assert ys[..m] + [ys[m]] == ys;
      }
    }
  }

  /** Every alert is also a displayed row, and the alerts keep the rows' order. */
  lemma {:induction false} AlertsAreRows(os: seq<Offer>, c: Criteria, unescape: string -> string)
    ensures IsSubsequence(Alerts(os, c, unescape), Rows(os, c, unescape))
  {
    if os != [] {
      var n := |os| - 1;
      var last := os[n];
      AlertsAreRows(os[..n], c, unescape);
      var a, r := Alerts(os[..n], c, unescape), Rows(os[..n], c, unescape);
      if Shown(last, c) {
        var room := RoomOf(last, unescape);
        assert (r + [room])[..|r|] == r;
        if Eligible(last, c, unescape) {
          assert (a + [room])[..|a|] == a;
        } else {
          assert Alerts(os, c, unescape) == a;
          SubsequenceOfLonger(a, r, room);
        }
      } else {
        assert Alerts(os, c, unescape) == a && Rows(os, c, unescape) == r;
      }
    }
  }

  /** A successful classification contains no sold-out block and no block of
      a hotel miles away unless show_all is set, and its alerts are exactly
      the shown blocks that pass all three tests. */
  lemma ClassifyContents(hotels: seq<Hotel>, c: Criteria, unescape: string -> string, room: Room)
    requires Classify(hotels, c, unescape).Ok?
    ensures var t := Classify(hotels, c, unescape).value; var os := Offers(hotels);
            && (room in t.rows <==>
                  exists k :: 0 <= k < |os| && RoomOf(os[k], unescape) == room &&
                              (os[k].hotel.distanceUnit != Miles || c.showAll) &&
                              MinAvailable(os[k].block.inventory) != 0)
            && (room in t.alerts <==>
                  exists k :: 0 <= k < |os| && RoomOf(os[k], unescape) == room &&
                              Shown(os[k], c) && CloseEnough(os[k].hotel, c) &&
                              room.price as real <= c.budget && c.hotelRegex(room.name) && c.roomRegex(room.room))
            && IsSubsequence(t.alerts, t.rows)
  {
    var os := Offers(hotels);
    RowsMembership(os, c, unescape, room);
    AlertsMembership(os, c, unescape, room);
    AlertsAreRows(os, c, unescape);
  }

  /** With show_all every hotel is close enough, miles-away ones included. */
  lemma ShowAllIsCloseEnough(h: Hotel, c: Criteria)
    requires c.showAll
    ensures CloseEnough(h, c) && !MilesSkipped(h, c)
  {
  }

  /** Without --max-distance every hotel measured in blocks is close enough. */
  lemma NoLimitBlocksAreClose(h: Hotel, c: Criteria)
    requires c.maxDistance.NoLimit? && h.distanceUnit == Blocks
    ensures CloseEnough(h, c)
  {
  }

  /** A hotel two blocks away with one available $100 line item, searched
      with a budget of 150 and a limit of five blocks, is both a row and an alert. */
  lemma ScenarioNearbyRoomAlerts()
    ensures var h := Hotel("Hotel", 2.0, Blocks, None, [Block("King", [Inventory(100.0, 1)])]);
            var c := Criteria(Within(5.0), 150.0, s => true, s => true, false);
            var room := Room("Hotel", Measured(2.0, "blocks"), 100, "King");
            Classify([h], c, s => s) == Ok(Tally([room], [room]))
  {
    var inventory := [Inventory(100.0, 1)];
    var h := Hotel("Hotel", 2.0, Blocks, None, [Block("King", inventory)]);
    var c := Criteria(Within(5.0), 150.0, s => true, s => true, false);
    var u: string -> string := s => s;
    var o := Offer(h, h.blocks[0]);
    SingleOffer(h);
    assert inventory[..0] == [];
    assert SumRates(inventory) == 100.0;
    assert Price(inventory) == 100;
    assert MinAvailable(inventory) == 1;
    assert !IsConnected(h);
    var room := Room("Hotel", Measured(2.0, "blocks"), 100, "King");
    assert RoomOf(o, u) == room;
    assert Shown(o, c) && Eligible(o, c, u);
    SingleTally(o, c, u);
  }

  /** The same hotel with its only line item sold out yields nothing. */
  lemma ScenarioSoldOutExcluded()
    ensures var h := Hotel("Hotel", 2.0, Blocks, None, [Block("King", [Inventory(80.0, 0)])]);
            var c := Criteria(Within(5.0), 150.0, s => true, s => true, false);
            Classify([h], c, s => s) == Ok(Tally([], []))
  {
    var inventory := [Inventory(80.0, 0)];
    var h := Hotel("Hotel", 2.0, Blocks, None, [Block("King", inventory)]);
    var c := Criteria(Within(5.0), 150.0, s => true, s => true, false);
    var u: string -> string := s => s;
    var o := Offer(h, h.blocks[0]);
    SingleOffer(h);
    assert MinAvailable(inventory) == 0;
    assert !Shown(o, c);
    SingleTally(o, c, u);
  }

  lemma SingleOffer(h: Hotel)
    requires |h.blocks| == 1
    ensures Offers([h]) == [Offer(h, h.blocks[0])]
  {
    assert [h][..0] == [];
  }

  lemma SingleTally(o: Offer, c: Criteria, unescape: string -> string)
    ensures !AnyRaises([o], c) <==> !Raises(o, c)
    ensures Rows([o], c, unescape) == if Shown(o, c) then [RoomOf(o, unescape)] else []
    ensures Alerts([o], c, unescape) == if Shown(o, c) && Eligible(o, c, unescape) then [RoomOf(o, unescape)] else []
  {
    ExtendTally([], o, c, unescape);
    assert [] + [o] == [o];
  }
}
