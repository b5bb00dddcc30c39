/** Runs that mix market events with the orders of several engines: consumed liquidity is exactly what
    the fills took, and never more than was there at the latest of them. */
module ConsumptionRuns {
  import opened Domain
  import opened Ladders
  import opened HistoricalLobStores
  import opened EngineViews
  import opened FillSimulators
  import opened FillSimulation

  /** One price of one side of one instrument, as one engine sees it. */
  datatype Slot = Slot(engineId: nat, instrumentId: nat, side: Side, price: int)

  /** A fill with the historical volume its level had when it was made. */
  datatype Taken = Taken(slot: Slot, size: nat, available: nat)

  datatype Exec = Exec(store: Store, views: Views, log: seq<Taken>)

  datatype Move =
    | Market(event: Event)
    | Submit(request: Request)
    | PlaceOwn(engineId: nat, order: SynOrder)
    | CancelOwn(engineId: nat, id: nat)

  function ConsumedIn(v: View, slot: Slot): nat {
    At(ConsumedAt(v, slot.instrumentId, slot.side), slot.price)
  }

  function Consumed(views: Views, slot: Slot): nat {
    if slot.engineId in views then ConsumedIn(views[slot.engineId], slot) else 0
  }

  function LoggedSum(log: seq<Taken>, slot: Slot): nat {
    if log == [] then 0
    else
      var last := log[|log| - 1];
      LoggedSum(log[..|log| - 1], slot) + if last.slot == slot then last.size else 0
  }

  /** What was there at the latest fill of the slot. */
  function LatestAvailable(log: seq<Taken>, slot: Slot): nat {
    if log == [] then 0
    else
      var last := log[|log| - 1];
      if last.slot == slot then last.available else LatestAvailable(log[..|log| - 1], slot)
  }

  function SlotOf(r: Request, price: int): Slot {
    Slot(r.engineId, r.instrumentId, Opposite(r.side), price)
  }

  function LogFills(log: seq<Taken>, r: Request, hist: Levels, fills: seq<Level>): seq<Taken> {
    if fills == [] then log
    else
      var n := |fills| - 1;
      LogFills(log, r, hist, fills[..n])
        + [Taken(SlotOf(r, fills[n].price), fills[n].size, At(hist, fills[n].price))]
  }

  ghost function Advance(x: Exec, move: Move): Exec
    requires GoodStore(x.store)
  {
    match move
    case Market(e) => x.(store := StoreApply(x.store, e))
    case Submit(r) =>
      var res := SubmitResult(x.views, x.store, r);
      Exec(x.store, SubmitViews(x.views, x.store, r), LogFills(x.log, r, HistFor(x.store, r), res.fills))
    case PlaceOwn(e, order) =>
      if e !in x.views || order.instrumentId == 0 || !ActiveSide(order.side) || order.size == 0
         || order.price == UNDEFINED_PRICE
      then x
      else
        var v := x.views[e];
        x.(views := x.views[e := v.(nextId := v.nextId + 1, own := v.own[v.nextId := order])])
    case CancelOwn(e, id) =>
      if e !in x.views then x
      else x.(views := x.views[e := x.views[e].(own := x.views[e].own - {id})])
  }

  ghost predicate Tracked(consumed: nat, log: seq<Taken>, slot: Slot) {
    consumed == LoggedSum(log, slot) && consumed <= LatestAvailable(log, slot)
  }

  /** Consumption equals the logged fills at every price, and stayed within the volume of the latest. */
  ghost predicate Accounted(x: Exec) {
    && GoodStore(x.store)
    && (forall slot: Slot :: Tracked(Consumed(x.views, slot), x.log, slot))
  }

  lemma ConsumeOne(v: View, i: nat, side: Side, price: int, size: nat, slot: Slot)
    requires i != 0 && ActiveSide(side)
    ensures ConsumedIn(ConsumeAt(v, i, side, price, size), slot)
         == ConsumedIn(v, slot)
            + if slot.instrumentId == i && slot.side == side && slot.price == price then size else 0
  {
  }

  /** What a list of fills takes at one price. */
  function FilledAt(fills: seq<Level>, price: int): nat {
    if fills == [] then 0
    else
      var n := |fills| - 1;
      FilledAt(fills[..n], price) + if fills[n].price == price then fills[n].size else 0
  }

  /** One fill per price. */
  ghost predicate OncePerPrice(fills: seq<Level>) {
    forall i, j :: 0 <= i < j < |fills| ==> fills[i].price != fills[j].price
  }

  lemma {:induction false} FilledOnce(fills: seq<Level>, k: nat)
    requires OncePerPrice(fills) && k < |fills|
    ensures FilledAt(fills, fills[k].price) == fills[k].size
  {
    var n := |fills| - 1;
    if k < n {
      FilledOnce(fills[..n], k);
    } else {
      FilledNowhere(fills[..n], fills[k].price);
    }
  }

  lemma {:induction false} FilledNowhere(fills: seq<Level>, price: int)
    requires forall k :: 0 <= k < |fills| ==> fills[k].price != price
    ensures FilledAt(fills, price) == 0
  {
    if fills != [] {
      FilledNowhere(fills[..|fills| - 1], price);
    }
  }

  /** Consumption grows by what was filled, price by price, and nowhere else. */
  lemma {:induction false} ConsumedAfter(v: View, i: nat, side: Side, fills: seq<Level>, slot: Slot)
    requires i != 0 && ActiveSide(side)
    ensures ConsumedIn(ConsumeFills(v, i, side, fills), slot)
         == ConsumedIn(v, slot) + if slot.instrumentId == i && slot.side == side then FilledAt(fills, slot.price) else 0
  {
    if fills != [] {
      var n := |fills| - 1;
      ConsumedAfter(v, i, side, fills[..n], slot);
      ConsumeOne(ConsumeFills(v, i, side, fills[..n]), i, side, fills[n].price, fills[n].size, slot);
      hide ConsumedIn, ConsumeAt;
    }
  }

  /** What lets the fills of one order stay within the historical volume. */
  ghost predicate Affordable(v: View, r: Request, hist: Levels, fills: seq<Level>) {
    && OncePerPrice(fills)
    && (forall k :: 0 <= k < |fills| ==>
          ConsumedIn(v, SlotOf(r, fills[k].price)) + fills[k].size <= At(hist, fills[k].price))
  }

  lemma LogOne(consumed: nat, log: seq<Taken>, entry: Taken, slot: Slot)
    requires Tracked(consumed, log, slot) && (entry.slot == slot ==> consumed + entry.size <= entry.available)
    ensures Tracked(consumed + if entry.slot == slot then entry.size else 0, log + [entry], slot)
  {
    assert (log + [entry])[..|log|] == log;
  }

  lemma {:induction false} FillsTracked(
    consumed: nat, r: Request, hist: Levels, fills: seq<Level>, log: seq<Taken>, slot: Slot)
    requires slot.engineId == r.engineId && Tracked(consumed, log, slot) && OncePerPrice(fills)
    requires forall k :: 0 <= k < |fills| && slot == SlotOf(r, fills[k].price) ==>
      consumed + fills[k].size <= At(hist, fills[k].price)
    ensures Tracked(consumed + if slot == SlotOf(r, slot.price) then FilledAt(fills, slot.price) else 0,
                    LogFills(log, r, hist, fills), slot)
  {
    if fills != [] {
      var n := |fills| - 1;
      var before, last := fills[..n], fills[n];
      FillsTracked(consumed, r, hist, before, log, slot);
      if last.price == slot.price {
        FilledNowhere(before, slot.price);
      }
      var entry := Taken(SlotOf(r, last.price), last.size, At(hist, last.price));
      var so := consumed + if slot == SlotOf(r, slot.price) then FilledAt(before, slot.price) else 0;
      LogOne(so, LogFills(log, r, hist, before), entry, slot);
      hide Tracked;
    }
  }

  lemma {:induction false} OthersUntracked(r: Request, hist: Levels, fills: seq<Level>, log: seq<Taken>, slot: Slot)
    requires slot.engineId != r.engineId
    ensures LoggedSum(LogFills(log, r, hist, fills), slot) == LoggedSum(log, slot)
    ensures LatestAvailable(LogFills(log, r, hist, fills), slot) == LatestAvailable(log, slot)
  {
    if fills != [] {
      var n := |fills| - 1;
      OthersUntracked(r, hist, fills[..n], log, slot);
      var logged := LogFills(log, r, hist, fills[..n]);
      assert LogFills(log, r, hist, fills)[..|logged|] == logged;
    }
  }

  /** The fills of a simulated order fit into what the engine had left of each level. */
  lemma SimAffordable(v: View, hist: Levels, r: Request)
    ensures Affordable(v, r, hist, SimFills(v, hist, r))
  {
    SimBounded(v, hist, r);
    var fills, ladder := SimFills(v, hist, r), Reach(v, hist, r);
    var side := Opposite(r.side);
    var visible := Visible(hist, ConsumedAt(v, r.instrumentId, side));
    assert IsLadder(side, ladder, visible);
    hide SimFills, Reach, Ladder;
    forall k | 0 <= k < |fills|
      ensures ConsumedIn(v, SlotOf(r, fills[k].price)) + fills[k].size <= At(hist, fills[k].price)
    {
      assert visible[ladder[k].price] == ladder[k].size;
    }
  }

  /** One order adds its fills, and nothing else, to its engine's consumption. */
  lemma SimConsumes(v: View, hist: Levels, r: Request, slot: Slot)
    requires ValidRequest(r)
    ensures ConsumedIn(SimView(v, hist, r), slot)
         == ConsumedIn(v, slot)
            + if slot.instrumentId == r.instrumentId && slot.side == Opposite(r.side)
              then FilledAt(SimFills(v, hist, r), slot.price) else 0
  {
    SimBounded(v, hist, r);
    var fills := SimFills(v, hist, r);
    var v0 := v.(nextId := v.nextId + 1);
    ConsumedAfter(v0, r.instrumentId, Opposite(r.side), fills, slot);
    hide SimFills, ConsumeFills, FilledAt;
  }

  lemma SimTracked(v: View, hist: Levels, r: Request, log: seq<Taken>, slot: Slot)
    requires ValidRequest(r) && slot.engineId == r.engineId && Tracked(ConsumedIn(v, slot), log, slot)
    ensures Tracked(ConsumedIn(SimView(v, hist, r), slot), LogFills(log, r, hist, SimFills(v, hist, r)), slot)
  {
    SimConsumes(v, hist, r, slot);
    SimAffordable(v, hist, r);
    hide SimFills, SimView, ConsumedIn, Tracked, LogFills, FilledAt, ValidRequest;
    FillsTracked(ConsumedIn(v, slot), r, hist, SimFills(v, hist, r), log, slot);
  }

  lemma SubmitTracked(x: Exec, r: Request, slot: Slot)
    requires GoodStore(x.store) && Tracked(Consumed(x.views, slot), x.log, slot)
    ensures
      var x' := Advance(x, Submit(r));
      Tracked(Consumed(x'.views, slot), x'.log, slot)
  {
    if Admitted(x.views, r) {
      var v, hist := x.views[r.engineId], HistFor(x.store, r);
      if slot.engineId == r.engineId {
        SimTracked(v, hist, r, x.log, slot);
      } else {
        OthersUntracked(r, hist, SimFills(v, hist, r), x.log, slot);
      }
    }
    hide ConsumedIn, SimFills, SimView, HistFor, LogFills, ValidRequest;
  }

  /** Every move keeps the account; only a submission changes consumption, and only its engine's view. */
  lemma AdvanceKeepsAccount(x: Exec, move: Move)
    requires Accounted(x)
    ensures Accounted(Advance(x, move))
    ensures !move.Market? ==> Advance(x, move).store == x.store
    ensures forall e :: e in x.views && (move.Market? || e != MoverOf(move)) ==>
      e in Advance(x, move).views && Advance(x, move).views[e] == x.views[e]
  {
    var x' := Advance(x, move);
    if move.Market? {
      StoreApplyKeepsGood(x.store, move.event);
    }
    forall slot: Slot
      ensures Tracked(Consumed(x'.views, slot), x'.log, slot)
    {
      assert Tracked(Consumed(x.views, slot), x.log, slot);
      if move.Submit? {
        SubmitTracked(x, move.request, slot);
      } else {
        assert Consumed(x'.views, slot) == Consumed(x.views, slot);
      }
    }
  }

  function MoverOf(move: Move): nat {
    match move
    case Market(_) => 0
    case Submit(r) => r.engineId
    case PlaceOwn(e, _) => e
    case CancelOwn(e, _) => e
  }

  ghost function ExecRun(engines: set<nat>, moves: seq<Move>): (x: Exec)
    ensures Accounted(x)
  {
    if moves == [] then
      Exec(map[], map e | e in engines :: View(1, map[], map[]), [])
    else
      var x := ExecRun(engines, moves[..|moves| - 1]);
      AdvanceKeepsAccount(x, moves[|moves| - 1]);
      Advance(x, moves[|moves| - 1])
  }

  /** After any run: consumption at a price is the sum of the engine's fills there, and within the
      historical volume at its latest fill. */
  lemma ConsumptionIsFills(engines: set<nat>, moves: seq<Move>, slot: Slot)
    requires slot.engineId in engines
    ensures
      var x := ExecRun(engines, moves);
      && slot.engineId in x.views
      && ConsumedIn(x.views[slot.engineId], slot) == LoggedSum(x.log, slot)
      && LoggedSum(x.log, slot) <= LatestAvailable(x.log, slot)
  {
    EnginesStay(engines, moves, slot.engineId);
    assert Tracked(Consumed(ExecRun(engines, moves).views, slot), ExecRun(engines, moves).log, slot);
  }

  lemma {:induction false} EnginesStay(engines: set<nat>, moves: seq<Move>, e: nat)
    requires e in engines
    ensures e in ExecRun(engines, moves).views
  {
    if moves != [] {
      EnginesStay(engines, moves[..|moves| - 1], e);
    }
  }

  // ---- what an order leaves behind ----

  /** When part of an order stays unfilled, no level it could still see is within its limit. */
  lemma RemainderMeetsNothing(v: View, hist: Levels, r: Request, price: int)
    requires ValidRequest(r) && SimResultOf(v, hist, r).remaining > 0
    requires price in Visible(hist, ConsumedAt(SimView(v, hist, r), r.instrumentId, Opposite(r.side)))
    ensures !Crosses(r.side, r.limitPrice, price)
  {
    SimBounded(v, hist, r);
    SimAffordable(v, hist, r);
    var fills, ladder := SimFills(v, hist, r), Reach(v, hist, r);
    var side := Opposite(r.side);
    var visible := Visible(hist, ConsumedAt(v, r.instrumentId, side));
    assert IsLadder(side, ladder, visible);
    SimConsumes(v, hist, r, SlotOf(r, price));
    hide SimFills, Reach, Ladder, SimView;
    assert price in visible;
    var k :| 0 <= k < |ladder| && ladder[k] == Level(price, visible[price]);
    if k < |fills| {
      FilledOnce(fills, k);
    } else if k > |fills| {
      assert Better(side, ladder[|fills|].price, price);
    }
  }

  /** None above the limit, cheapest first. */
  ghost predicate Bought(fills: seq<Level>, limit: int) {
    && (forall k :: 0 <= k < |fills| ==> fills[k].price <= limit)
    && (forall i, j :: 0 <= i < j < |fills| ==> fills[i].price < fills[j].price)
  }

  /** None below the limit, dearest first. */
  ghost predicate Sold(fills: seq<Level>, limit: int) {
    && (forall k :: 0 <= k < |fills| ==> fills[k].price >= limit)
    && (forall i, j :: 0 <= i < j < |fills| ==> fills[i].price > fills[j].price)
  }

  /** The engine has not yet consumed all of the historical volume at a price. */
  ghost predicate Sees(v: View, hist: Levels, i: nat, side: Side, p: int) {
    p in hist && hist[p] > At(ConsumedAt(v, i, side), p)
  }

  /** Every fill is at a price with historical volume. */
  ghost predicate TakenFrom(fills: seq<Level>, hist: Levels) {
    forall k :: 0 <= k < |fills| ==> fills[k].price in hist
  }

  /** A limit order in plain prices. A buy takes asks, cheapest first, none above its limit, and when part of it is left
      every ask the engine still sees costs more; a sell takes bids, dearest first, none below its limit, and
      when part of it is left every bid the engine still sees pays less. */
  lemma LimitIsKept(views: Views, store: Store, r: Request)
    requires GoodStore(store) && Admitted(views, r)
    ensures
      var res, i := SubmitResult(views, store, r), r.instrumentId;
      var asks, bids := HistLevels(store, i, Ask), HistLevels(store, i, Bid);
      && r.engineId in SubmitViews(views, store, r)
      && var v := SubmitViews(views, store, r)[r.engineId];
      && res.filled + res.remaining == r.size && Sum(res.fills) == res.filled
      && (r.side == Bid ==>
            && Bought(res.fills, r.limitPrice) && TakenFrom(res.fills, asks)
            && (res.remaining > 0 ==> forall p :: Sees(v, asks, i, Ask, p) ==> p > r.limitPrice))
      && (r.side == Ask ==>
            && Sold(res.fills, r.limitPrice) && TakenFrom(res.fills, bids)
            && (res.remaining > 0 ==> forall p :: Sees(v, bids, i, Bid, p) ==> p < r.limitPrice))
  {
    var v, hist := views[r.engineId], HistFor(store, r);
    assert r.side == Bid || r.side == Ask;
    hide SimResultOf, SimView, HistLevels, Bought, Sold, TakenFrom, Sees;
    FillsKeepLimit(v, hist, r);
    if SimResultOf(v, hist, r).remaining > 0 {
      forall p | Sees(SimView(v, hist, r), hist, r.instrumentId, Opposite(r.side), p)
        ensures if r.side == Bid then p > r.limitPrice else p < r.limitPrice
      {
        LeftoverOutOfReach(v, hist, r, p);
      }
    }
  }

  /** Which orders the simulator takes, field by field; any other changes nothing and fills nothing. */
  lemma TakenIff(views: Views, store: Store, r: Request)
    requires GoodStore(store)
    ensures
      var res := SubmitResult(views, store, r);
      if r.instrumentId != 0 && (r.side == Bid || r.side == Ask) && r.limitPrice != 0x7FFF_FFFF_FFFF_FFFF
         && r.size > 0 && r.engineId in views
      then Admitted(views, r) && res.requested == r.size && res.syntheticId == views[r.engineId].nextId
      else res == SimResult(0, r.size, 0, 0, []) && SubmitViews(views, store, r) == views
  {
    hide SimView, HistFor;
  }

  lemma FillsKeepLimit(v: View, hist: Levels, r: Request)
    requires r.side == Bid || r.side == Ask
    ensures
      var res := SimResultOf(v, hist, r);
      && res.filled + res.remaining == r.size && Sum(res.fills) == res.filled && TakenFrom(res.fills, hist)
      && (if r.side == Bid then Bought(res.fills, r.limitPrice) else Sold(res.fills, r.limitPrice))
  {
    SimBounded(v, hist, r);
    FillsAreHistorical(v, hist, r);
    hide SimFills, Reach, Sum;
  }

  lemma LeftoverOutOfReach(v: View, hist: Levels, r: Request, p: int)
    requires ValidRequest(r) && SimResultOf(v, hist, r).remaining > 0
    requires Sees(SimView(v, hist, r), hist, r.instrumentId, Opposite(r.side), p)
    ensures if r.side == Bid then p > r.limitPrice else p < r.limitPrice
  {
    hide SimResultOf, SimView;
    RemainderMeetsNothing(v, hist, r, p);
  }

  lemma FillsAreHistorical(v: View, hist: Levels, r: Request)
    ensures forall k :: 0 <= k < |SimFills(v, hist, r)| ==> SimFills(v, hist, r)[k].price in hist
  {
    SimBounded(v, hist, r);
    var fills, ladder := SimFills(v, hist, r), Reach(v, hist, r);
    assert IsLadder(Opposite(r.side), ladder, Visible(hist, ConsumedAt(v, r.instrumentId, Opposite(r.side))));
    hide SimFills, Reach, Ladder;
    forall k | 0 <= k < |fills|
      ensures fills[k].price in hist
    {
      assert ladder[k].price in hist;
    }
  }
}
