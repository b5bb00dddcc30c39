/** The fill simulator: it takes a fresh snapshot and rebuilds the visible ladder for every single fill,
    and is proved to do what one walk of the ladder computed once does. */
module FillSimulation {
  import opened Domain
  import opened Ladders
  import opened EngineViews
  import opened HistoricalLobStores
  import opened FillSimulators

  type Views = map<nat, View>

  /** The request reaches the matching loop. */
  predicate Admitted(views: Views, r: Request) {
    ValidRequest(r) && r.engineId in views
  }

  ghost function HistFor(store: Store, r: Request): Levels
    requires GoodStore(store)
  {
    HistLevels(store, r.instrumentId, Opposite(r.side))
  }

  ghost function SubmitResult(views: Views, store: Store, r: Request): SimResult
    requires GoodStore(store)
  {
    if Admitted(views, r) then SimResultOf(views[r.engineId], HistFor(store, r), r)
    else SimResult(0, r.size, 0, 0, [])
  }

  ghost function SubmitViews(views: Views, store: Store, r: Request): Views
    requires GoodStore(store)
  {
    if Admitted(views, r) then views[r.engineId := SimView(views[r.engineId], HistFor(store, r), r)] else views
  }

  /** What is still to be filled, seen from a view part way through the loop. */
  ghost predicate Underway(v: View, v0: View, hist: Levels, r: Request, fills: seq<Level>, remaining: nat) {
    && v == ConsumeFills(v0, r.instrumentId, Opposite(r.side), fills)
    && Sum(fills) + remaining == r.size
    && SimFills(v0, hist, r) == fills + Walk(Reach(v, hist, r), r.side, r.limitPrice, remaining)
  }

  lemma UnderwayStarts(v0: View, hist: Levels, r: Request)
    ensures Underway(v0, v0, hist, r, [], r.size)
  {
  }

  ghost predicate Done(v: View, v0: View, hist: Levels, r: Request, fills: seq<Level>, remaining: nat) {
    && fills == SimFills(v0, hist, r)
    && v == ConsumeFills(v0, r.instrumentId, Opposite(r.side), fills)
    && Sum(fills) + remaining == r.size
  }

  lemma UnderwayEnds(v: View, v0: View, hist: Levels, r: Request, fills: seq<Level>, remaining: nat)
    requires Underway(v, v0, hist, r, fills, remaining)
    ensures remaining == 0 ==> Done(v, v0, hist, r, fills, remaining)
  {
  }

  /** The first level of the ladder the order meets. */
  ghost predicate IsBestVisible(best: Option<Level>, v: View, hist: Levels, r: Request) {
    var side := Opposite(r.side);
    var visible := Visible(hist, ConsumedAt(v, r.instrumentId, side));
    if visible == map[] then best == None
    else best == Some(Level(Best(side, visible.Keys), visible[Best(side, visible.Keys)]))
  }

  /** The fill one pass makes. */
  ghost predicate TakesBest(fill: Option<Level>, v: View, hist: Levels, r: Request, remaining: nat) {
    exists best :: IsBestVisible(best, v, hist, r) &&
      fill == if best == None || !Crosses(r.side, r.limitPrice, best.value.price) then None
              else Some(Level(best.value.price, Min(remaining, best.value.size)))
  }

  function AfterFill(fill: Option<Level>, v: View, r: Request): View {
    if fill == None then v else ConsumeAt(v, r.instrumentId, Opposite(r.side), fill.value.price, fill.value.size)
  }

  lemma UnderwayStep(
    v: View, v0: View, hist: Levels, r: Request, fills: seq<Level>, remaining: nat, fill: Option<Level>)
    requires ValidRequest(r) && remaining > 0 && Underway(v, v0, hist, r, fills, remaining)
    requires TakesBest(fill, v, hist, r, remaining)
    ensures fill == None ==> Done(v, v0, hist, r, fills, remaining)
    ensures fill != None ==>
      && 0 < fill.value.size <= remaining
      && Underway(AfterFill(fill, v, r), v0, hist, r, fills + [fill.value], remaining - fill.value.size)
  {
    PassIsHead(v, hist, r, remaining, fill);
    hide Walk, Reach, SimFills, TakesBest, ConsumeAt;
    if fill != None {
      var all := fills + [fill.value];
      SumAppend(fills, fill.value);
      assert all[..|fills|] == fills;
      var rest := Walk(Reach(AfterFill(fill, v, r), hist, r), r.side, r.limitPrice, remaining - fill.value.size);
      assert fills + ([fill.value] + rest) == all + rest;
    }
  }

  lemma PassIsHead(v: View, hist: Levels, r: Request, remaining: nat, fill: Option<Level>)
    requires ValidRequest(r) && remaining > 0 && TakesBest(fill, v, hist, r, remaining)
    ensures fill == None ==> Walk(Reach(v, hist, r), r.side, r.limitPrice, remaining) == []
    ensures fill != None ==>
      && 0 < fill.value.size <= remaining
      && Walk(Reach(v, hist, r), r.side, r.limitPrice, remaining)
         == [fill.value] + Walk(Reach(AfterFill(fill, v, r), hist, r), r.side, r.limitPrice,
                                remaining - fill.value.size)
  {
    TakeBest(v, hist, r, remaining);
    hide Walk, Visible, IsLadder, IsBest, ConsumeAt;
  }

  /** The reserved id plays no part in the walk. */
  lemma Assembled(v: View, v1: View, hist: Levels, r: Request, fills: seq<Level>, remaining: nat)
    requires Done(v1, v.(nextId := v.nextId + 1), hist, r, fills, remaining)
    ensures SimResultOf(v, hist, r) == SimResult(v.nextId, r.size, r.size - remaining, remaining, fills)
    ensures SimView(v, hist, r) == Rest(v1, r, v.nextId, remaining)
  {
    assert Reach(v.(nextId := v.nextId + 1), hist, r) == Reach(v, hist, r);
    hide Reach, Walk, ConsumeFills, Rest;
  }

  class FillSimulator {
    const store: HistoricalLobStore
    const views: map<nat, EngineView>

    constructor (store: HistoricalLobStore, views: map<nat, EngineView>)
      ensures this.store == store && this.views == views
    {
      this.store, this.views := store, views;
    }

    /** Every view is sound and belongs to one engine. */
    ghost predicate Valid()
      reads store, store.books.Values, views.Values
    {
      && store.Valid()
      && (forall e :: e in views ==> views[e].Valid())
      && (forall e, f :: e in views && f in views && e != f ==> views[e] != views[f])
    }

    ghost function Values(): Views
      reads views.Values
    {
      map e | e in views :: views[e].Value()
    }

    /** The best level of the opposite side that the engine still sees. */
    method BestVisible(view: EngineView, r: Request) returns (best: Option<Level>)
      requires store.Valid() && GoodStore(store.Tables())
      ensures IsBestVisible(best, view.Value(), HistFor(store.Tables(), r), r)
    {
      var side := Opposite(r.side);
      var s := store.Snapshot(r.instrumentId, None);
      var taken := LevelsOf(view.consumed, r.instrumentId).Of(side);
      var consumed := LevelsTo(side, taken, None);
      ghost var hist := HistFor(store.Tables(), r);
      LadderRoundTrip(side, hist);
      LadderRoundTrip(side, taken);
      assert side == Bid || side == Ask;
      hide Visible, Ladder, FromList, LevelsOf, HistFor, FillSimulator.Valid, HistoricalLobStore.Valid, GoodStore;
      var levels := VisibleHistorical(side, if side == Bid then s.bids else s.asks, consumed);
      assert levels == Visible(hist, taken);
      if levels == map[] {
        return None;
      }
      var p := Best(side, levels.Keys);
      return Some(Level(p, levels[p]));
    }

    /** One pass of the loop: no level in reach, or the best one is taken as far as needed. */
    method TakeOne(view: EngineView, r: Request, remaining: nat) returns (fill: Option<Level>)
      requires store.Valid() && GoodStore(store.Tables()) && view.Valid() && ValidRequest(r) && remaining > 0
      modifies view`consumed
      ensures view.Valid()
      ensures TakesBest(fill, old(view.Value()), HistFor(store.Tables(), r), r, remaining)
      ensures view.Value() == AfterFill(fill, old(view.Value()), r)
    {
      hide IsBestVisible, ConsumeAt, Crosses, HistFor, GoodStore, HistoricalLobStore.Valid, HistoricalLobStore.Tables,
        EngineView.Valid, EngineView.Value;
      var best := BestVisible(view, r);
      if best == None || !Crosses(r.side, r.limitPrice, best.value.price) {
        return None;
      }
      var size := Min(remaining, best.value.size);
      view.ConsumeHistoricalLiquidity(r.instrumentId, Opposite(r.side), best.value.price, size);
      return Some(Level(best.value.price, size));
    }

    /** The loop of the program. */
    method FillAgainst(view: EngineView, r: Request) returns (fills: seq<Level>, remaining: nat)
      requires store.Valid() && GoodStore(store.Tables()) && view.Valid() && ValidRequest(r)
      modifies view`consumed
      ensures view.Valid()
      ensures Done(view.Value(), old(view.Value()), HistFor(store.Tables(), r), r, fills, remaining)
    {
      hide Done, Underway, TakesBest, ConsumeAt, ValidRequest, HistFor, GoodStore, HistoricalLobStore.Valid,
        HistoricalLobStore.Tables, EngineView.Valid, EngineView.Value;
      fills, remaining := [], r.size;
      ghost var v0 := view.Value();
      ghost var hist := HistFor(store.Tables(), r);
      UnderwayStarts(v0, hist, r);
      UnderwayEnds(v0, v0, hist, r, fills, remaining);
      while remaining > 0
        invariant view.Valid() && Underway(view.Value(), v0, hist, r, fills, remaining)
        invariant remaining == 0 ==> Done(view.Value(), v0, hist, r, fills, remaining)
        decreases remaining
      {
        ghost var v := view.Value();
        var fill := TakeOne(view, r, remaining);
        UnderwayStep(v, v0, hist, r, fills, remaining, fill);
        if fill == None {
          break;
        }
        fills := fills + [fill.value];
        remaining := remaining - fill.value.size;
        UnderwayEnds(view.Value(), v0, hist, r, fills, remaining);
      }
    }

    method SubmitLimitOrderResult(r: Request) returns (res: SimResult)
      requires Valid()
      modifies views.Values
      ensures Valid() && GoodStore(store.Tables())
      ensures res == SubmitResult(old(Values()), store.Tables(), r)
      ensures Values() == SubmitViews(old(Values()), store.Tables(), r)
    {
      store.TablesGood();
      if !ValidRequest(r) || r.engineId !in views {
        return SimResult(0, r.size, 0, 0, []);
      }
      var view := views[r.engineId];
      res := Submit(view, r);
    }

    /** A valid request of an engine that has a view. */
    method Submit(view: EngineView, r: Request) returns (res: SimResult)
      requires store.Valid() && GoodStore(store.Tables()) && view.Valid() && ValidRequest(r)
      modifies view
      ensures view.Valid()
      ensures res == SimResultOf(old(view.Value()), HistFor(store.Tables(), r), r)
      ensures view.Value() == SimView(old(view.Value()), HistFor(store.Tables(), r), r)
    {
      hide SimResultOf, SimView, Done, HistFor, GoodStore, HistoricalLobStore.Valid, HistoricalLobStore.Tables,
        EngineView.Valid;
      ghost var v, hist := view.Value(), HistFor(store.Tables(), r);
      var id := view.ReserveSyntheticOrderId();
      var fills, remaining := FillAgainst(view, r);
      Assembled(v, view.Value(), hist, r, fills, remaining);
      res := SimResult(id, r.size, r.size - remaining, remaining, fills);
      if remaining > 0 {
        view.AddSyntheticOrderWithId(id, SynOrder(r.instrumentId, r.side, r.limitPrice, remaining, r.timestamp));
      }
    }
  }
}
