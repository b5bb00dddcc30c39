/** Resting orders and the per-price volume they add up to. */
module RestingOrders {
  import opened Domain
  import opened Totals
  import opened Ladders

  datatype Resting = Resting(side: Side, price: int, size: nat)

  type Orders = map<nat, Resting>

  ghost predicate WellFormed(orders: Orders) {
    forall o :: o in orders ==>
      ActiveSide(orders[o].side) && orders[o].size > 0
  }

  ghost function Sizes(orders: Orders, side: Side, price: int): map<nat, int> {
    map o | o in orders && orders[o].side == side && orders[o].price == price :: orders[o].size
  }

  /** The sum of the resting sizes at one side and price. */
  ghost function Volume(orders: Orders, side: Side, price: int): int {
    Total(Sizes(orders, side, price))
  }

  /** What one order would contribute to a level. */
  function Share(r: Resting, side: Side, price: int): nat {
    if r.side == side && r.price == price then r.size else 0
  }

  lemma VolumeRemove(orders: Orders, o: nat, side: Side, price: int)
    requires o in orders
    ensures Volume(orders - {o}, side, price) == Volume(orders, side, price) - Share(orders[o], side, price)
  {
    assert Sizes(orders - {o}, side, price) == Sizes(orders, side, price) - {o};
    TotalWithout(Sizes(orders, side, price), o);
  }

  lemma VolumePut(orders: Orders, o: nat, r: Resting, side: Side, price: int)
    requires o !in orders
    ensures Volume(orders[o := r], side, price) == Volume(orders, side, price) + Share(r, side, price)
  {
    var m := Sizes(orders, side, price);
    if r.side == side && r.price == price {
      assert Sizes(orders[o := r], side, price) == m[o := r.size];
      TotalUpdate(m, o, r.size);
      TotalWithout(m, o);
    } else {
      assert Sizes(orders[o := r], side, price) == m;
    }
  }

  lemma VolumeBounds(orders: Orders, side: Side, price: int)
    requires WellFormed(orders)
    ensures Volume(orders, side, price) >= 0
    ensures forall o :: o in orders ==> Share(orders[o], side, price) <= Volume(orders, side, price)
  {
    var m := Sizes(orders, side, price);
    TotalPositive(m);
    forall o | o in orders
      ensures Share(orders[o], side, price) <= Volume(orders, side, price)
    {
      assert Share(orders[o], side, price) != 0 ==> o in m;
    }
  }

  /** A level is present exactly when volume rests there, and it equals that volume. */
  ghost predicate LevelMatches(levels: Levels, orders: Orders, side: Side, price: int) {
    At(levels, price) == Volume(orders, side, price) && (price in levels ==> levels[price] > 0)
  }

  ghost predicate Aggregates(levels: Levels, orders: Orders, side: Side) {
    forall price :: LevelMatches(levels, orders, side, price)
  }

  /** The event places order o, field by field: an add or a modify under a non-zero id, of a bid or an ask, with a
      price below the largest 64-bit value and a positive size. */
  predicate PlacesOrder(e: Event, o: nat) {
    && (e.action == Add || e.action == Modify) && e.orderId == o && o != 0
    && (e.side == Bid || e.side == Ask) && e.price != 0x7FFF_FFFF_FFFF_FFFF && e.size > 0
  }

  /** What a cancel takes off a resting order: all of it unless it names a smaller size. */
  function CancelAmount(e: Event, r: Resting): nat {
    if e.size == 0 || e.size > r.size then r.size else e.size
  }

  /** Taking `amount` off order o, erasing it when nothing remains. */
  function Reduce(orders: Orders, o: nat, amount: nat): Orders
    requires o in orders && amount <= orders[o].size
  {
    if amount == orders[o].size then orders - {o}
    else orders[o := orders[o].(size := orders[o].size - amount)]
  }

  lemma VolumeReduce(orders: Orders, o: nat, amount: nat, side: Side, price: int)
    requires o in orders && amount <= orders[o].size
    ensures Volume(Reduce(orders, o, amount), side, price)
         == Volume(orders, side, price) - Share(orders[o].(size := amount), side, price)
  {
    VolumeRemove(orders, o, side, price);
    if amount < orders[o].size {
      var r := orders[o].(size := orders[o].size - amount);
      VolumePut(orders - {o}, o, r, side, price);
      assert (orders - {o})[o := r] == orders[o := r];
    }
  }

  /** The level of a resting order always covers it, so the clamp in the removal never binds. */
  lemma LevelCoversOrder(levels: Levels, orders: Orders, side: Side, o: nat)
    requires WellFormed(orders) && Aggregates(levels, orders, side)
    requires o in orders && orders[o].side == side
    ensures orders[o].price in levels && orders[o].size <= levels[orders[o].price]
  {
    VolumeBounds(orders, side, orders[o].price);
    assert Share(orders[o], side, orders[o].price) == orders[o].size;
    assert LevelMatches(levels, orders, side, orders[o].price);
  }

  lemma LevelAfterRemoval(levels: Levels, orders: Orders, side: Side, o: nat, amount: nat, price: int)
    requires o in orders && 0 < amount <= orders[o].size
    requires orders[o].side == side ==> orders[o].price in levels && orders[o].size <= levels[orders[o].price]
    requires LevelMatches(levels, orders, side, price)
    ensures
      var r := orders[o];
      LevelMatches(if r.side == side then RemoveVolume(levels, r.price, amount) else levels,
                   Reduce(orders, o, amount), side, price)
  {
    VolumeReduce(orders, o, amount, side, price);
    hide Volume, Reduce;
  }

  lemma RemovalKeepsAggregates(levels: Levels, orders: Orders, side: Side, o: nat, amount: nat)
    requires WellFormed(orders) && Aggregates(levels, orders, side)
    requires o in orders && 0 < amount <= orders[o].size
    ensures
      var r := orders[o];
      Aggregates(if r.side == side then RemoveVolume(levels, r.price, amount) else levels,
                 Reduce(orders, o, amount), side)
  {
    hide LevelMatches, WellFormed, Reduce, RemoveVolume;
    var r := orders[o];
    var levels' := if r.side == side then RemoveVolume(levels, r.price, amount) else levels;
    if r.side == side {
      LevelCoversOrder(levels, orders, side, o);
    }
    forall price
      ensures LevelMatches(levels', Reduce(orders, o, amount), side, price)
    {
      LevelAfterRemoval(levels, orders, side, o, amount, price);
    }
  }

  lemma InsertionKeepsAggregates(levels: Levels, orders: Orders, side: Side, o: nat, r: Resting)
    requires Aggregates(levels, orders, side) && o !in orders && r.size > 0
    ensures Aggregates(if r.side == side then AddVolume(levels, r.price, r.size) else levels, orders[o := r], side)
  {
    var levels' := if r.side == side then AddVolume(levels, r.price, r.size) else levels;
    var orders' := orders[o := r];
    forall price
      ensures LevelMatches(levels', orders', side, price)
    {
      assert LevelMatches(levels, orders, side, price);
      VolumePut(orders, o, r, side, price);
      hide Volume;
    }
  }

  lemma NoOrdersNoLevels(side: Side)
    ensures Aggregates(map[], map[], side)
  {
    var levels: Levels, orders: Orders := map[], map[];
    forall price
      ensures LevelMatches(levels, orders, side, price)
    {
      assert Sizes(orders, side, price) == map[];
    }
  }

  /** The levels are a function of the resting orders alone. */
  lemma AggregatesUnique(a: Levels, b: Levels, orders: Orders, side: Side)
    requires Aggregates(a, orders, side) && Aggregates(b, orders, side)
    ensures a == b
  {
    forall price
      ensures price in a <==> price in b
      ensures price in a && price in b ==> a[price] == b[price]
    {
      assert LevelMatches(a, orders, side, price) && LevelMatches(b, orders, side, price);
    }
  }

  /** The levels of one side, computed from the resting orders alone. */
  ghost function SideLevels(orders: Orders, side: Side): (levels: Levels)
    requires WellFormed(orders)
    ensures Aggregates(levels, orders, side)
  {
    var prices := set o | o in orders && orders[o].side == side :: orders[o].price;
    assert forall p :: Volume(orders, side, p) >= 0 by {
      forall p ensures Volume(orders, side, p) >= 0 { VolumeBounds(orders, side, p); }
    }
    var levels: Levels := map p | p in prices :: Volume(orders, side, p) as nat;
    LevelsOfPrices(orders, side, prices, levels);
    levels
  }

  lemma LevelsOfPrices(orders: Orders, side: Side, prices: set<int>, levels: Levels)
    requires WellFormed(orders)
    requires prices == set o | o in orders && orders[o].side == side :: orders[o].price
    requires levels.Keys == prices
    requires forall p :: p in levels ==> levels[p] == Volume(orders, side, p)
    ensures Aggregates(levels, orders, side)
  {
    forall price
      ensures LevelMatches(levels, orders, side, price)
    {
      VolumeBounds(orders, side, price);
      if price in levels {
        var o :| o in orders && orders[o].side == side && orders[o].price == price;
        assert Share(orders[o], side, price) > 0;
      } else {
        assert Sizes(orders, side, price) == map[];
      }
    }
  }
}
