/** The historical book the execution side reads. Its simple form is the table of resting orders, each
    with its instrument; the class also maintains the levels, and clears selectively in a loop. */
module HistoricalLobs {
  import opened Domain
  import opened Ladders
  import opened RestingOrders

  datatype HistOrder = HistOrder(instrumentId: nat, side: Side, price: int, quantity: nat)

  type HistOrders = map<nat, HistOrder>

  function PlainOrder(h: HistOrder): Resting {
    Resting(h.side, h.price, h.quantity)
  }

  /** The same orders without their instrument. */
  function Plain(h: HistOrders): (r: Orders)
    ensures r.Keys == h.Keys
  {
    map o | o in h :: PlainOrder(h[o])
  }

  function HistOf(e: Event): HistOrder {
    HistOrder(e.instrumentId, e.side, e.price, e.size)
  }

  function KeepOthers(h: HistOrders, i: nat): HistOrders {
    map o | o in h && h[o].instrumentId != i :: h[o]
  }

  function ReduceHist(h: HistOrders, o: nat, amount: nat): HistOrders
    requires o in h && amount <= h[o].quantity
  {
    if amount == h[o].quantity then h - {o} else h[o := h[o].(quantity := h[o].quantity - amount)]
  }

  /** What an event does to the table. A modify of an unknown order is ignored here. */
  function HistApply(h: HistOrders, e: Event): HistOrders {
    var o := e.orderId;
    match e.action
    case Add => if ValidResting(e) then h[o := HistOf(e)] else h
    case Modify => if o in h && ValidResting(e) then h[o := HistOf(e)] else h
    case Cancel => if o in h then ReduceHist(h, o, CancelAmount(e, PlainOrder(h[o]))) else h
    case Clear => if e.instrumentId == 0 then map[] else KeepOthers(h, e.instrumentId)
    case Trade | Fill | NoAction => h
  }

  lemma PlainFacts(h: HistOrders, o: nat, x: HistOrder)
    ensures Plain(h - {o}) == Plain(h) - {o}
    ensures Plain(h[o := x]) == Plain(h)[o := PlainOrder(x)]
  {
  }

  lemma PlainReduce(h: HistOrders, o: nat, amount: nat)
    requires o in h && amount <= h[o].quantity
    ensures Plain(ReduceHist(h, o, amount)) == Reduce(Plain(h), o, amount)
  {
  }

  function FindHist(h: HistOrders, o: nat): Option<HistOrder> {
    if o in h then Some(h[o]) else None
  }

  /** What one event does to one order of the table: as in a book, but a modify does not place an unknown order,
      and a clear that names an instrument removes the orders of that instrument. */
  lemma HistEventOnOrder(h: HistOrders, e: Event, o: nat)
    requires WellFormed(Plain(h))
    ensures
      var before, after := FindHist(h, o), FindHist(HistApply(h, e), o);
      if PlacesOrder(e, o) && (e.action == Add || before.Some?) then
        after == Some(HistOrder(e.instrumentId, e.side, e.price, e.size))
      else if e.action == Clear && before.Some? && (e.instrumentId == 0 || before.value.instrumentId == e.instrumentId)
        then after == None
      else if e.action == Cancel && e.orderId == o && before.Some? then
        after == if e.size == 0 || e.size >= before.value.quantity then None
                 else Some(before.value.(quantity := before.value.quantity - e.size))
      else after == before
  {
    if o in h {
      assert Plain(h)[o].size > 0;
    }
  }

  class HistoricalLOB {
    var instrumentId: nat
    var bids: Levels
    var asks: Levels
    var orders: HistOrders

    ghost predicate Valid()
      reads `bids, `asks, `orders
    {
      && WellFormed(Plain(orders))
      && Aggregates(bids, Plain(orders), Bid)
      && Aggregates(asks, Plain(orders), Ask)
    }

    constructor ()
      ensures Valid() && orders == map[] && instrumentId == 0
    {
      instrumentId := 0;
      bids, asks, orders := map[], map[], map[];
      new;
      NoOrdersNoLevels(Bid);
      NoOrdersNoLevels(Ask);
      assert Plain(orders) == map[];
    }

    method Apply(e: Event)
      requires Valid()
      modifies this
      ensures Valid() && orders == HistApply(old(orders), e)
      ensures instrumentId == if e.instrumentId != 0 then e.instrumentId else old(instrumentId)
    {
      hide Valid;
      if e.instrumentId != 0 {
        instrumentId := e.instrumentId;
      }
      match e.action
      case Add => ApplyAdd(e);
      case Modify => ApplyModify(e);
      case Cancel => ApplyCancel(e);
      case Clear => ApplyClear(e);
      case _ =>
    }

    method ApplyAdd(e: Event)
      requires Valid()
      modifies `bids, `asks, `orders
      ensures Valid() && orders == HistApply(old(orders), e.(action := Add))
    {
      if !ValidResting(e) {
        return;
      }
      hide Valid;
      RemoveOrder(e.orderId);
      InsertOrder(e.orderId, HistOf(e));
    }

    method ApplyModify(e: Event)
      requires Valid()
      modifies `bids, `asks, `orders
      ensures Valid() && orders == HistApply(old(orders), e.(action := Modify))
    {
      if e.orderId !in orders || !ValidResting(e) {
        return;
      }
      hide Valid;
      TakeVolume(e.orderId, orders[e.orderId].quantity);
      InsertOrder(e.orderId, HistOf(e));
    }

    method ApplyCancel(e: Event)
      requires Valid()
      modifies `bids, `asks, `orders
      ensures Valid() && orders == HistApply(old(orders), e.(action := Cancel))
    {
      if e.orderId !in orders {
        return;
      }
      assert orders[e.orderId].quantity > 0 by {
        assert Plain(orders)[e.orderId].size > 0;
      }
      hide Valid;
      TakeVolume(e.orderId, CancelAmount(e, PlainOrder(orders[e.orderId])));
    }

    /** Everything when no instrument is named, otherwise order by order those of that instrument. */
    method ApplyClear(e: Event)
      requires Valid()
      modifies `bids, `asks, `orders
      ensures Valid() && orders == HistApply(old(orders), e.(action := Clear))
    {
      if e.instrumentId == 0 {
        bids, asks, orders := map[], map[], map[];
        NoOrdersNoLevels(Bid);
        NoOrdersNoLevels(Ask);
        assert Plain(orders) == map[];
        return;
      }
      hide Valid;
      var unseen := orders.Keys;
      while unseen != {}
        invariant Valid()
        invariant unseen <= orders.Keys <= old(orders).Keys
        invariant forall o :: o in orders ==> orders[o] == old(orders)[o]
        invariant forall o :: o in old(orders) && o !in unseen ==>
          (o in orders <==> old(orders)[o].instrumentId != e.instrumentId)
        decreases |unseen|
      {
        var o :| o in unseen;
        if orders[o].instrumentId == e.instrumentId {
          RemoveOrder(o);
        }
        unseen := unseen - {o};
      }
    }

    method RemoveOrder(o: nat)
      requires Valid()
      modifies `bids, `asks, `orders
      ensures Valid() && orders == old(orders) - {o}
    {
      if o !in orders {
        assert orders - {o} == orders;
        return;
      }
      assert orders[o].quantity > 0 by {
        assert Plain(orders)[o].size > 0;
      }
      TakeVolume(o, orders[o].quantity);
    }

    /** Remove volume from the order's level and from the order, erasing it when nothing is left. */
    method TakeVolume(o: nat, amount: nat)
      requires Valid() && o in orders && 0 < amount <= orders[o].quantity
      modifies `bids, `asks, `orders
      ensures Valid() && orders == ReduceHist(old(orders), o, amount)
    {
      hide Aggregates, WellFormed;
      var order := orders[o];
      ghost var plain := Plain(orders);
      RemovalKeepsAggregates(bids, plain, Bid, o, amount);
      RemovalKeepsAggregates(asks, plain, Ask, o, amount);
      ReduceKeepsWellFormed(plain, o, amount);
      PlainReduce(orders, o, amount);
      RemoveLevelVolume(order.side, order.price, amount);
      orders := if amount == order.quantity then orders - {o}
                else orders[o := order.(quantity := order.quantity - amount)];
    }

    method InsertOrder(o: nat, order: HistOrder)
      requires Valid() && o !in orders && order.quantity > 0 && ActiveSide(order.side)
      modifies `bids, `asks, `orders
      ensures Valid() && orders == old(orders)[o := order]
    {
      hide Aggregates;
      InsertionKeepsAggregates(bids, Plain(orders), Bid, o, PlainOrder(order));
      InsertionKeepsAggregates(asks, Plain(orders), Ask, o, PlainOrder(order));
      PlainFacts(orders, o, order);
      orders := orders[o := order];
      AddLevelVolume(order.side, order.price, order.quantity);
    }

    method AddLevelVolume(side: Side, price: int, quantity: nat)
      modifies `bids, `asks
      ensures bids == if side == Bid then AddVolume(old(bids), price, quantity) else old(bids)
      ensures asks == if side == Ask then AddVolume(old(asks), price, quantity) else old(asks)
    {
      if side == Bid {
        bids := bids[price := At(bids, price) + quantity];
      } else if side == Ask {
        asks := asks[price := At(asks, price) + quantity];
      }
    }

    method RemoveLevelVolume(side: Side, price: int, quantity: nat)
      modifies `bids, `asks
      ensures bids == if side == Bid then RemoveVolume(old(bids), price, quantity) else old(bids)
      ensures asks == if side == Ask then RemoveVolume(old(asks), price, quantity) else old(asks)
    {
      if side == Bid && price in bids {
        bids := if bids[price] <= quantity then bids - {price} else bids[price := bids[price] - quantity];
      } else if side == Ask && price in asks {
        asks := if asks[price] <= quantity then asks - {price} else asks[price := asks[price] - quantity];
      }
    }
  }

  lemma ReduceKeepsWellFormed(orders: Orders, o: nat, amount: nat)
    requires WellFormed(orders) && o in orders && amount <= orders[o].size
    ensures WellFormed(Reduce(orders, o, amount))
  {
  }
}
