/** One engine's private view: its own resting orders and the historical liquidity it has consumed.
    The simple form keeps only these; the class also maintains the levels of its own orders. */
module EngineViews {
  import opened Domain
  import opened Ladders
  import opened RestingOrders

  datatype SynOrder = SynOrder(instrumentId: nat, side: Side, price: int, size: nat, timestamp: int)

  datatype TwoSides = TwoSides(bids: Levels, asks: Levels) {
    function Of(side: Side): Levels {
      if side == Bid then bids else if side == Ask then asks else map[]
    }

    function Add(side: Side, price: int, size: nat): TwoSides {
      if side == Bid then this.(bids := AddVolume(bids, price, size))
      else if side == Ask then this.(asks := AddVolume(asks, price, size))
      else this
    }

    function Remove(side: Side, price: int, size: nat): TwoSides {
      if side == Bid then this.(bids := RemoveVolume(bids, price, size))
      else if side == Ask then this.(asks := RemoveVolume(asks, price, size))
      else this
    }
  }

  const NO_LEVELS: TwoSides := TwoSides(map[], map[])

  type ByInstrument = map<nat, TwoSides>

  function LevelsOf(books: ByInstrument, i: nat): TwoSides {
    if i in books then books[i] else NO_LEVELS
  }

  type OwnOrders = map<nat, SynOrder>

  /** The simple form of a view. */
  datatype View = View(nextId: nat, own: OwnOrders, consumed: ByInstrument)

  /** An engine's own resting orders in one instrument. */
  function OwnAt(own: OwnOrders, i: nat): Orders {
    map o | o in own && own[o].instrumentId == i :: Resting(own[o].side, own[o].price, own[o].size)
  }

  /** Ids are handed out once, in increasing order, starting at 1. */
  ghost predicate GoodView(v: View) {
    && v.nextId > 0
    && (forall o :: o in v.own ==> 0 < o < v.nextId && ActiveSide(v.own[o].side) && v.own[o].size > 0)
  }

  function ConsumeAt(v: View, i: nat, side: Side, price: int, size: nat): View {
    if i == 0 || size == 0 then v
    else v.(consumed := v.consumed[i := LevelsOf(v.consumed, i).Add(side, price, size)])
  }

  function ConsumedAt(v: View, i: nat, side: Side): Levels {
    LevelsOf(v.consumed, i).Of(side)
  }

  /** The synthetic levels of every instrument are the sums of the engine's own orders there. */
  ghost predicate SyntheticMatches(synthetic: ByInstrument, own: OwnOrders, i: nat) {
    && WellFormed(OwnAt(own, i))
    && Aggregates(LevelsOf(synthetic, i).bids, OwnAt(own, i), Bid)
    && Aggregates(LevelsOf(synthetic, i).asks, OwnAt(own, i), Ask)
  }

  lemma OwnAtChanges(own: OwnOrders, o: nat, order: SynOrder, i: nat)
    ensures OwnAt(own - {o}, i) == OwnAt(own, i) - {o}
    ensures OwnAt(own[o := order], i) ==
      if order.instrumentId == i then OwnAt(own, i)[o := Resting(order.side, order.price, order.size)]
      else OwnAt(own, i) - {o}
  {
  }

  lemma AddMatches(synthetic: ByInstrument, own: OwnOrders, o: nat, order: SynOrder, i: nat)
    requires SyntheticMatches(synthetic, own, i) && o !in own && order.size > 0 && ActiveSide(order.side)
    ensures
      var at := order.instrumentId;
      SyntheticMatches(
        synthetic[at := LevelsOf(synthetic, at).Add(order.side, order.price, order.size)], own[o := order], i)
  {
    OwnAtChanges(own, o, order, i);
    var resting := OwnAt(own, i);
    if order.instrumentId == i {
      var r := Resting(order.side, order.price, order.size);
      InsertionKeepsAggregates(LevelsOf(synthetic, i).bids, resting, Bid, o, r);
      InsertionKeepsAggregates(LevelsOf(synthetic, i).asks, resting, Ask, o, r);
    } else {
      assert resting - {o} == resting;
    }
    hide Aggregates, AddVolume;
  }

  lemma CancelMatches(synthetic: ByInstrument, own: OwnOrders, o: nat, i: nat)
    requires SyntheticMatches(synthetic, own, i) && o in own
    ensures
      var order := own[o];
      var at := order.instrumentId;
      SyntheticMatches(
        synthetic[at := LevelsOf(synthetic, at).Remove(order.side, order.price, order.size)], own - {o}, i)
  {
    var order, resting := own[o], OwnAt(own, i);
    OwnAtChanges(own, o, order, i);
    if order.instrumentId == i {
      assert resting[o] == Resting(order.side, order.price, order.size);
      RemovalKeepsAggregates(LevelsOf(synthetic, i).bids, resting, Bid, o, order.size);
      RemovalKeepsAggregates(LevelsOf(synthetic, i).asks, resting, Ask, o, order.size);
      assert Reduce(resting, o, order.size) == resting - {o};
    } else {
      assert resting - {o} == resting;
    }
    hide Aggregates, RemoveVolume;
  }

  /** A reserved id that names no order yet, and an order that can rest. */
  predicate Restable(id: nat, order: SynOrder, nextId: nat, own: OwnOrders) {
    0 < id < nextId && id !in own && order.size > 0 && ActiveSide(order.side)
  }

  class EngineView {
    const engineId: nat
    var nextOrderId: nat
    var ownOrders: OwnOrders
    var synthetic: ByInstrument
    var consumed: ByInstrument

    ghost predicate Valid()
      reads this
    {
      && GoodView(Value())
      && (forall i :: SyntheticMatches(synthetic, ownOrders, i))
    }

    ghost function Value(): View
      reads this
    {
      View(nextOrderId, ownOrders, consumed)
    }

    constructor (engineId: nat)
      ensures Valid() && this.engineId == engineId && Value() == View(1, map[], map[])
    {
      this.engineId := engineId;
      nextOrderId, ownOrders, synthetic, consumed := 1, map[], map[], map[];
      new;
      NoOrdersNoLevels(Bid);
      NoOrdersNoLevels(Ask);
      forall i
        ensures SyntheticMatches(synthetic, ownOrders, i)
      {
        assert OwnAt(ownOrders, i) == map[];
      }
    }

    method ReserveSyntheticOrderId() returns (id: nat)
      requires Valid()
      modifies `nextOrderId
      ensures Valid() && id == old(nextOrderId) && id > 0 && id !in ownOrders
      ensures Value() == old(Value()).(nextId := id + 1)
    {
      id := nextOrderId;
      nextOrderId := nextOrderId + 1;
    }

    /** Whatever the id and the order, the order is filed under the id and its volume added. A reserved id that
        names no order, with an order that can rest, keeps the levels the sums of the own orders. */
    method AddSyntheticOrderWithId(id: nat, order: SynOrder)
      modifies `ownOrders, `synthetic
      ensures Value() == old(Value()).(own := old(ownOrders)[id := order])
      ensures
        var at := order.instrumentId;
        synthetic == old(synthetic)[at := LevelsOf(old(synthetic), at).Add(order.side, order.price, order.size)]
      ensures old(Valid()) && Restable(id, order, old(nextOrderId), old(ownOrders)) ==> Valid()
    {
      hide SyntheticMatches, TwoSides.Add;
      var at := order.instrumentId;
      ghost var before, own := synthetic, ownOrders;
      ownOrders := ownOrders[id := order];
      synthetic := synthetic[at := LevelsOf(synthetic, at).Add(order.side, order.price, order.size)];
      if old(Valid()) && Restable(id, order, nextOrderId, own) {
        forall i
          ensures SyntheticMatches(synthetic, ownOrders, i)
        {
          AddMatches(before, own, id, order, i);
        }
      }
    }

    method AddSyntheticOrder(order: SynOrder) returns (id: nat)
      requires Valid()
      modifies this
      ensures Valid()
      ensures
        if order.instrumentId == 0 || !ActiveSide(order.side) || order.price == UNDEFINED_PRICE || order.size == 0
        then id == 0 && Value() == old(Value())
        else id == old(nextOrderId) &&
             Value() == View(id + 1, old(ownOrders)[id := order], old(consumed))
    {
      if order.instrumentId == 0 || !ActiveSide(order.side) || order.price == UNDEFINED_PRICE || order.size == 0 {
        return 0;
      }
      hide SyntheticMatches;
      id := ReserveSyntheticOrderId();
      AddSyntheticOrderWithId(id, order);
    }

    method CancelSyntheticOrder(id: nat)
      requires Valid()
      modifies `ownOrders, `synthetic
      ensures Valid() && Value() == old(Value()).(own := old(ownOrders) - {id})
    {
      if id !in ownOrders {
        assert ownOrders - {id} == ownOrders;
        return;
      }
      hide SyntheticMatches, TwoSides.Remove;
      var order := ownOrders[id];
      var at := order.instrumentId;
      ghost var before, own := synthetic, ownOrders;
      synthetic := synthetic[at := LevelsOf(synthetic, at).Remove(order.side, order.price, order.size)];
      ownOrders := ownOrders - {id};
      forall i
        ensures SyntheticMatches(synthetic, ownOrders, i)
      {
        CancelMatches(before, own, id, i);
      }
    }

    method ConsumeHistoricalLiquidity(i: nat, side: Side, price: int, size: nat)
      requires Valid()
      modifies `consumed
      ensures Valid() && Value() == ConsumeAt(old(Value()), i, side, price, size)
    {
      if i == 0 || size == 0 {
        return;
      }
      consumed := consumed[i := LevelsOf(consumed, i).Add(side, price, size)];
    }
  }
}
