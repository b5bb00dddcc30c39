/** One instrument's book: the simple form keeps only the resting orders and the counters, the class
    also maintains the per-price levels in place. */
module LimitOrderBooks {
  import opened Domain
  import opened Ladders
  import opened RestingOrders

  /** The simple form of a book. */
  datatype Book = Book(
    orders: Orders,
    recovered: nat,
    modifySkipped: nat,
    cancelSkipped: nat,
    trades: nat,
    fills: nat)

  const EMPTY_BOOK: Book := Book(map[], 0, 0, 0, 0, 0)

  function RestingOf(e: Event): Resting {
    Resting(e.side, e.price, e.size)
  }

  /** What one event does to the resting orders and counters. */
  function BookApply(b: Book, e: Event): Book {
    match e.action
    case Add =>
      if ValidResting(e) then b.(orders := b.orders[e.orderId := RestingOf(e)]) else b
    case Modify =>
      if ValidResting(e) then
        b.(orders := b.orders[e.orderId := RestingOf(e)],
           recovered := if e.orderId in b.orders then b.recovered else b.recovered + 1)
      else if e.orderId in b.orders then b
      else b.(modifySkipped := b.modifySkipped + 1)
    case Cancel =>
      if e.orderId in b.orders then
        b.(orders := Reduce(b.orders, e.orderId, CancelAmount(e, b.orders[e.orderId])))
      else b.(cancelSkipped := b.cancelSkipped + 1)
    case Clear => b.(orders := map[])
    case Trade => b.(trades := b.trades + 1)
    case Fill => b.(fills := b.fills + 1)
    case NoAction => b
  }

  /** Orders that an event may leave in a book: no zero id, an active side, a positive size. */
  ghost predicate GoodBook(b: Book) {
    WellFormed(b.orders) && 0 !in b.orders
  }

  lemma BookApplyKeepsGood(b: Book, e: Event)
    requires GoodBook(b)
    ensures GoodBook(BookApply(b, e))
  {
  }

  /** The book a run of events leaves behind. */
  function BookRun(events: seq<Event>): Book {
    if events == [] then EMPTY_BOOK
    else BookApply(BookRun(events[..|events| - 1]), events[|events| - 1])
  }

  lemma {:induction false} BookRunGood(events: seq<Event>)
    ensures GoodBook(BookRun(events))
  {
    if events != [] {
      BookRunGood(events[..|events| - 1]);
      BookApplyKeepsGood(BookRun(events[..|events| - 1]), events[|events| - 1]);
    }
  }

  ghost function Placed(events: seq<Event>): nat {
    if events == [] then 0
    else Placed(events[..|events| - 1]) +
         var e := events[|events| - 1];
         if (e.action == Add || e.action == Modify) && ValidResting(e) then e.size else 0
  }

  /** No level ever exceeds the volume placed so far: below 2^64 in total, no 64-bit sum wraps. */
  lemma {:induction false} LevelsBoundedByPlaced(events: seq<Event>, side: Side, price: int)
    ensures Volume(BookRun(events).orders, side, price) <= Placed(events)
  {
    if events == [] {
      NoOrdersNoLevels(side);
    } else {
      var before := events[..|events| - 1];
      var e := events[|events| - 1];
      LevelsBoundedByPlaced(before, side, price);
      BookRunGood(before);
      VolumeAfter(BookRun(before), e, side, price);
    }
  }

  lemma VolumeAfter(b: Book, e: Event, side: Side, price: int)
    requires GoodBook(b)
    ensures Volume(BookApply(b, e).orders, side, price)
         <= Volume(b.orders, side, price) +
            (if (e.action == Add || e.action == Modify) && ValidResting(e) then e.size else 0)
  {
    VolumeBounds(b.orders, side, price);
    var o := e.orderId;
    match e.action
    case Add | Modify =>
      if o in b.orders {
        VolumeRemove(b.orders, o, side, price);
      } else {
        assert b.orders - {o} == b.orders;
      }
      VolumePut(b.orders - {o}, o, RestingOf(e), side, price);
      assert (b.orders - {o})[o := RestingOf(e)] == b.orders[o := RestingOf(e)];
    case Cancel =>
      if o in b.orders {
        VolumeReduce(b.orders, o, CancelAmount(e, b.orders[o]), side, price);
      }
    case Clear => NoOrdersNoLevels(side);
    case _ =>
  }

  // ---- what rests, read off the events ----

  function Find(orders: Orders, o: nat): Option<Resting> {
    if o in orders then Some(orders[o]) else None
  }

  /** What one event does to one order. */
  lemma EventOnOrder(b: Book, e: Event, o: nat)
    requires GoodBook(b)
    ensures
      var before, after := Find(b.orders, o), Find(BookApply(b, e).orders, o);
      if PlacesOrder(e, o) then after == Some(Resting(e.side, e.price, e.size))
      else if e.action == Clear then after == None
      else if e.action == Cancel && e.orderId == o && before.Some? then
        after == if e.size == 0 || e.size >= before.value.size then None
                 else Some(before.value.(size := before.value.size - e.size))
      else after == before
  {
  }

  /** What one event does to the counters: an unknown modify counts as recovered when it places its order and as
      skipped otherwise, an unknown cancel as skipped; trades and fills are counted and nothing else is. */
  lemma EventOnCounters(b: Book, e: Event)
    requires GoodBook(b)
    ensures
      var b', unknown := BookApply(b, e), e.orderId !in b.orders;
      && b'.recovered - b.recovered
         == (if e.action == Modify && unknown && PlacesOrder(e, e.orderId) then 1 else 0)
      && b'.modifySkipped - b.modifySkipped
         == (if e.action == Modify && unknown && !PlacesOrder(e, e.orderId) then 1 else 0)
      && b'.cancelSkipped - b.cancelSkipped == (if e.action == Cancel && unknown then 1 else 0)
      && b'.trades - b.trades == (if e.action == Trade then 1 else 0)
      && b'.fills - b.fills == (if e.action == Fill then 1 else 0)
  {
  }

  /** Event k is the last that places order o; no clear and no full cancel of o has come since. */
  ghost predicate StandsSince(events: seq<Event>, k: int, o: nat) {
    && 0 <= k < |events| && PlacesOrder(events[k], o)
    && forall j :: k < j < |events| ==>
         && !PlacesOrder(events[j], o) && events[j].action != Clear
         && !(events[j].action == Cancel && events[j].orderId == o && events[j].size == 0)
  }

  /** What cancels of order o name in all, from event k on. */
  function CancelledSince(events: seq<Event>, k: int, o: nat): nat {
    if |events| <= k + 1 || events == [] then 0
    else
      var e := events[|events| - 1];
      CancelledSince(events[..|events| - 1], k, o) + if e.action == Cancel && e.orderId == o then e.size else 0
  }

  ghost predicate StillRests(events: seq<Event>, k: int, o: nat) {
    StandsSince(events, k, o) && CancelledSince(events, k, o) < events[k].size
  }

  lemma StandsLonger(events: seq<Event>, k: int, o: nat)
    requires events != [] && k < |events| - 1
    ensures
      var front, e := events[..|events| - 1], events[|events| - 1];
      StandsSince(events, k, o) <==>
        && StandsSince(front, k, o) && !PlacesOrder(e, o) && e.action != Clear
        && !(e.action == Cancel && e.orderId == o && e.size == 0)
  {
    var front := events[..|events| - 1];
    if StandsSince(events, k, o) {
      assert forall j :: k < j < |front| ==> front[j] == events[j];
    }
  }

  /** An order rests in a book exactly when some event placed it that still stands and was not cancelled in full;
      it then rests with the side and price of that event and its size less what was cancelled since. */
  lemma {:induction false} RestsExactly(events: seq<Event>, o: nat)
    ensures o in BookRun(events).orders <==> exists k :: StillRests(events, k, o)
    ensures forall k :: StillRests(events, k, o) ==>
      && o in BookRun(events).orders
      && BookRun(events).orders[o]
         == Resting(events[k].side, events[k].price, events[k].size - CancelledSince(events, k, o))
  {
    if events != [] {
      var n := |events| - 1;
      var front, e := events[..n], events[n];
      RestsExactly(front, o);
      BookRunGood(front);
      EventOnOrder(BookRun(front), e, o);
      hide BookApply, GoodBook;
      assert StandsSince(events, n, o) <==> PlacesOrder(e, o);
      forall k | StandsSince(events, k, o)
        ensures k == n || StandsSince(front, k, o)
      {
        if k != n {
          StandsLonger(events, k, o);
        }
      }
      if o in BookRun(events).orders && !PlacesOrder(e, o) {
        var k :| StillRests(front, k, o);
        StandsLonger(events, k, o);
        assert StillRests(events, k, o);
      } else if PlacesOrder(e, o) {
        assert StillRests(events, n, o);
      }
    }
  }

  class LimitOrderBook {
    const instrumentId: nat
    var bids: Levels
    var asks: Levels
    var orders: Orders
    var recovered: nat
    var modifySkipped: nat
    var cancelSkipped: nat
    var trades: nat
    var fills: nat

    ghost predicate Valid()
      reads this
    {
      && GoodBook(Value())
      && Aggregates(bids, orders, Bid)
      && Aggregates(asks, orders, Ask)
    }

    ghost function Value(): Book
      reads this
    {
      Book(orders, recovered, modifySkipped, cancelSkipped, trades, fills)
    }

    constructor (instrumentId: nat)
      ensures Valid() && Value() == EMPTY_BOOK && this.instrumentId == instrumentId
    {
      this.instrumentId := instrumentId;
      bids, asks, orders := map[], map[], map[];
      recovered, modifySkipped, cancelSkipped, trades, fills := 0, 0, 0, 0, 0;
      NoOrdersNoLevels(Bid);
      NoOrdersNoLevels(Ask);
    }

    method Apply(e: Event)
      requires Valid()
      modifies this
      ensures Valid() && Value() == BookApply(old(Value()), e)
    {
      match e.action
      case Add => ApplyAdd(e);
      case Modify => ApplyModify(e);
      case Cancel => ApplyCancel(e);
      case Clear => ApplyClear();
      case Trade => trades := trades + 1;
      case Fill => fills := fills + 1;
      case NoAction =>
    }

    method ApplyAdd(e: Event)
      requires Valid()
      modifies this
      ensures Valid()
      ensures Value() == BookApply(old(Value()), e.(action := Add))
    {
      hide Aggregates;
      if !ValidResting(e) {
        return;
      }
      RemoveOrder(e.orderId);
      InsertionKeepsAggregates(bids, orders, Bid, e.orderId, RestingOf(e));
      InsertionKeepsAggregates(asks, orders, Ask, e.orderId, RestingOf(e));
      orders := orders[e.orderId := RestingOf(e)];
      AddLevelVolume(e.side, e.price, e.size);
      assert orders == old(orders)[e.orderId := RestingOf(e)];
    }

    method ApplyCancel(e: Event)
      requires Valid()
      modifies this
      ensures Valid()
      ensures Value() == BookApply(old(Value()), e.(action := Cancel))
    {
      hide Aggregates;
      var o := e.orderId;
      if o !in orders {
        cancelSkipped := cancelSkipped + 1;
        return;
      }
      var order := orders[o];
      var amount := CancelAmount(e, order);
      RemovalKeepsAggregates(bids, orders, Bid, o, amount);
      RemovalKeepsAggregates(asks, orders, Ask, o, amount);
      RemoveLevelVolume(order.side, order.price, amount);
      orders := orders[o := order.(size := order.size - amount)];
      if orders[o].size == 0 {
        orders := orders - {o};
      }
      assert orders == Reduce(old(orders), o, amount);
    }

    method ApplyModify(e: Event)
      requires Valid()
      modifies this
      ensures Valid()
      ensures Value() == BookApply(old(Value()), e.(action := Modify))
    {
      hide Aggregates;
      var o := e.orderId;
      if o !in orders {
        if ValidResting(e) {
          recovered := recovered + 1;
          ApplyAdd(e);
        } else {
          modifySkipped := modifySkipped + 1;
        }
        return;
      }
      if !ValidResting(e) {
        return;
      }
      var order := orders[o];
      RemovalKeepsAggregates(bids, orders, Bid, o, order.size);
      RemovalKeepsAggregates(asks, orders, Ask, o, order.size);
      RemoveLevelVolume(order.side, order.price, order.size);
      InsertionKeepsAggregates(bids, orders - {o}, Bid, o, RestingOf(e));
      InsertionKeepsAggregates(asks, orders - {o}, Ask, o, RestingOf(e));
      orders := orders[o := RestingOf(e)];
      AddLevelVolume(e.side, e.price, e.size);
      assert orders == (old(orders) - {o})[o := RestingOf(e)];
    }

    method ApplyClear()
      requires Valid()
      modifies this
      ensures Valid() && Value() == old(Value()).(orders := map[])
    {
      bids, asks, orders := map[], map[], map[];
      NoOrdersNoLevels(Bid);
      NoOrdersNoLevels(Ask);
    }

    method RemoveOrder(o: nat)
      requires Valid()
      modifies this
      ensures Valid() && Value() == old(Value()).(orders := old(orders) - {o})
    {
      hide Aggregates;
      if o !in orders {
        assert orders - {o} == orders;
        return;
      }
      var order := orders[o];
      RemovalKeepsAggregates(bids, orders, Bid, o, order.size);
      RemovalKeepsAggregates(asks, orders, Ask, o, order.size);
      RemoveLevelVolume(order.side, order.price, order.size);
      orders := orders - {o};
    }

    method AddLevelVolume(side: Side, price: int, size: nat)
      modifies this`bids, this`asks
      ensures bids == if side == Bid then AddVolume(old(bids), price, size) else old(bids)
      ensures asks == if side == Ask then AddVolume(old(asks), price, size) else old(asks)
    {
      if side == Bid {
        bids := bids[price := At(bids, price) + size];
      } else if side == Ask {
        asks := asks[price := At(asks, price) + size];
      }
    }

    method RemoveLevelVolume(side: Side, price: int, size: nat)
      modifies this`bids, this`asks
      ensures bids == if side == Bid then RemoveVolume(old(bids), price, size) else old(bids)
      ensures asks == if side == Ask then RemoveVolume(old(asks), price, size) else old(asks)
    {
      if side == Bid {
        if price !in bids {
          return;
        }
        if bids[price] <= size {
          bids := bids - {price};
        } else {
          bids := bids[price := bids[price] - size];
        }
      } else if side == Ask {
        if price !in asks {
          return;
        }
        if asks[price] <= size {
          asks := asks - {price};
        } else {
          asks := asks[price := asks[price] - size];
        }
      }
    }

    /** The highest price at which any bid rests. */
    method BestBid() returns (best: Option<int>)
      requires Valid()
      ensures best == BestPrice(orders, Bid)
    {
      AggregatesUnique(bids, SideLevels(orders, Bid), orders, Bid);
      best := if bids == map[] then None else Some(Best(Bid, bids.Keys));
    }

    /** The lowest price at which any ask rests. */
    method BestAsk() returns (best: Option<int>)
      requires Valid()
      ensures best == BestPrice(orders, Ask)
    {
      AggregatesUnique(asks, SideLevels(orders, Ask), orders, Ask);
      best := if asks == map[] then None else Some(Best(Ask, asks.Keys));
    }

    method VolumeAt(side: Side, price: int) returns (volume: nat)
      requires Valid()
      ensures volume == if ActiveSide(side) then Volume(orders, side, price) else 0
    {
      match side
      case Bid =>
        assert LevelMatches(bids, orders, Bid, price);
        volume := At(bids, price);
      case Ask =>
        assert LevelMatches(asks, orders, Ask, price);
        volume := At(asks, price);
      case NoSide => volume := 0;
    }

    /** The `depth` best levels of a side, computed from the levels but fixed by the orders. */
    method DepthLevels(side: Side, depth: nat) returns (levels: seq<Level>)
      requires Valid() && ActiveSide(side)
      ensures levels == TopOfBook(orders, side, depth)
    {
      hide Aggregates, IsLadder;
      AggregatesUnique(bids, SideLevels(orders, Bid), orders, Bid);
      AggregatesUnique(asks, SideLevels(orders, Ask), orders, Ask);
      levels := TopLevels(side, if side == Bid then bids else asks, depth);
      var all := SideLevels(orders, side);
      LadderUnique(side, Ladder(side, all), Ladder(side, all), all);
    }
  }

  ghost function BestPrice(orders: Orders, side: Side): (best: Option<int>)
    requires WellFormed(orders)
  {
    var levels := SideLevels(orders, side);
    if levels == map[] then None else Some(Best(side, levels.Keys))
  }

  ghost function TopOfBook(orders: Orders, side: Side, depth: nat): (levels: seq<Level>)
    requires WellFormed(orders)
  {
    var all := Ladder(side, SideLevels(orders, side));
    if depth < |all| then all[..depth] else all
  }

  /** The best price read off the orders themselves. */
  lemma BestPriceMeaning(orders: Orders, side: Side)
    requires WellFormed(orders)
    ensures BestPrice(orders, side) == None <==> forall o :: o in orders ==> orders[o].side != side
    ensures BestPrice(orders, side).Some? ==>
      && (exists o :: o in orders && orders[o].side == side && orders[o].price == BestPrice(orders, side).value)
      && (forall o :: o in orders && orders[o].side == side ==>
            if side == Bid then orders[o].price <= BestPrice(orders, side).value
            else orders[o].price >= BestPrice(orders, side).value)
  {
    hide Aggregates, WellFormed, SideLevels;
    var levels := SideLevels(orders, side);
    forall o | o in orders && orders[o].side == side
      ensures orders[o].price in levels
    {
      LevelCoversOrder(levels, orders, side, o);
    }
    if levels != map[] {
      var p := Best(side, levels.Keys);
      var o := LevelHasOrder(levels, orders, side, p);
    }
  }

  lemma LevelHasOrder(levels: Levels, orders: Orders, side: Side, price: int) returns (o: nat)
    requires Aggregates(levels, orders, side) && price in levels
    ensures o in orders && orders[o].side == side && orders[o].price == price
  {
    assert LevelMatches(levels, orders, side, price);
    assert Sizes(orders, side, price) != map[];
    o :| o in Sizes(orders, side, price);
  }

  /** The highest bids from the top down, or the lowest asks from the bottom up. */
  ghost predicate BestFirst(l: seq<Level>, side: Side) {
    forall i, j :: 0 <= i < j < |l| ==> if side == Bid then l[i].price > l[j].price else l[i].price < l[j].price
  }

  /** The price is listed, or the list is full of better ones. */
  ghost predicate Shown(l: seq<Level>, side: Side, depth: nat, price: int) {
    || (exists i :: 0 <= i < |l| && l[i].price == price)
    || (|l| == depth && forall i :: 0 <= i < |l| ==> if side == Bid then price < l[i].price else price > l[i].price)
  }

  /** A depth list shows the best prices first, each with the sum of the sizes resting there, and leaves a price out
      only when it is full of better ones. */
  lemma TopOfBookMeaning(orders: Orders, side: Side, depth: nat)
    requires WellFormed(orders)
    ensures
      var l := TopOfBook(orders, side, depth);
      && |l| <= depth && BestFirst(l, side)
      && (forall i :: 0 <= i < |l| ==> l[i].size == Volume(orders, side, l[i].price) > 0)
      && (forall o :: o in orders && orders[o].side == side ==> Shown(l, side, depth, orders[o].price))
  {
    var levels := SideLevels(orders, side);
    var all, l := Ladder(side, levels), TopOfBook(orders, side, depth);
    assert l <= all;
    LadderBestFirst(all, side);
    hide SideLevels, Ladder, WellFormed, Shown, IsLadder, Volume;
    forall i | 0 <= i < |l|
      ensures l[i].size == Volume(orders, side, l[i].price) > 0
    {
      LadderShows(all, levels, side, i);
      assert l[i] == all[i] && LevelMatches(levels, orders, side, l[i].price);
    }
    forall o | o in orders && orders[o].side == side
      ensures Shown(l, side, depth, orders[o].price)
    {
      LevelCoversOrder(levels, orders, side, o);
      CutShows(all, l, levels, side, depth, orders[o].price);
    }
  }

  lemma LadderBestFirst(l: seq<Level>, side: Side)
    requires Worsening(side, l)
    ensures BestFirst(l, side)
  {
  }

  lemma LadderShows(l: seq<Level>, levels: Levels, side: Side, i: nat)
    requires IsLadder(side, l, levels) && i < |l|
    ensures l[i].price in levels && levels[l[i].price] == l[i].size
  {
  }

  lemma CutShows(all: seq<Level>, l: seq<Level>, levels: Levels, side: Side, depth: nat, price: int)
    requires IsLadder(side, all, levels) && price in levels
    requires l == if depth < |all| then all[..depth] else all
    ensures Shown(l, side, depth, price)
  {
    var k :| 0 <= k < |all| && all[k] == Level(price, levels[price]);
    if k < |l| {
      assert l[k].price == price;
    } else {
      assert forall i :: 0 <= i < |l| ==> Better(side, l[i].price, all[k].price);
    }
  }
}
