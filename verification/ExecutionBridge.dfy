/** The bridge as the program runs it: one object over a gateway server and a fill simulator. */
module ExecutionBridges {
  import opened Totals
  import opened Ladders
  import opened EngineViews
  import opened HistoricalLobStores
  import opened FillSimulators
  import opened FillSimulation
  import opened Gateways
  import opened Bridges

  datatype BridgeResult = BridgeResult(
    newAccepted: nat, cancelAccepted: nat, modifyAccepted: nat, rejected: nat,
    fillsEmitted: nat, mappingsAdded: nat, mappingsErased: nat)
  {
    /** The counters of transitions are those of the other result. */
    predicate CountsAs(r: BridgeResult) {
      && newAccepted == r.newAccepted && cancelAccepted == r.cancelAccepted
      && modifyAccepted == r.modifyAccepted && rejected == r.rejected
    }
  }

  function CountGranted(ts: seq<Transition>, kind: Kind): nat {
    if ts == [] then 0
    else
      var t := ts[|ts| - 1];
      CountGranted(ts[..|ts| - 1], kind) + if t.Granted? && t.kind == kind then 1 else 0
  }

  function CountRefused(ts: seq<Transition>): nat {
    if ts == [] then 0 else CountRefused(ts[..|ts| - 1]) + if ts[|ts| - 1].Refused? then 1 else 0
  }

  /** Each counter is the number of transitions of its kind. */
  predicate Counted(r: BridgeResult, ts: seq<Transition>) {
    && r.newAccepted == CountGranted(ts, NewOrder) && r.cancelAccepted == CountGranted(ts, CancelOrder)
    && r.modifyAccepted == CountGranted(ts, ModifyOrder) && r.rejected == CountRefused(ts)
  }

  // ---- fills on the channels ----

  function FillCount(log: seq<OrderEvent>): nat {
    if log == [] then 0 else FillCount(log[..|log| - 1]) + if log[|log| - 1].Filling? then 1 else 0
  }

  ghost function FillCounts(g: Gateway): map<nat, int> {
    map e | e in g.sessions :: FillCount(g.sessions[e].events.pushed)
  }

  /** How many fills all channels together have carried. */
  ghost function FillsReported(g: Gateway): int {
    Total(FillCounts(g))
  }

  lemma PushCounts(g: Gateway, g': Gateway, e: nat, ev: OrderEvent)
    requires e in g.sessions && g'.sessions.Keys == g.sessions.Keys
    requires forall x :: x in g.sessions && x != e ==> g'.sessions[x].events == g.sessions[x].events
    requires g'.sessions[e].events.pushed == g.sessions[e].events.pushed + [ev]
    ensures FillsReported(g') == FillsReported(g) + if ev.Filling? then 1 else 0
  {
    var log, log' := g.sessions[e].events.pushed, g'.sessions[e].events.pushed;
    assert log'[..|log|] == log;
    hide Total;
    var count := FillCount(log');
    assert FillCounts(g') == FillCounts(g)[e := count];
    TotalUpdate(FillCounts(g), e, count);
    TotalWithout(FillCounts(g), e);
  }

  lemma EmitCounts(g: Gateway, k: Key, price: int, size: nat, timestamp: int)
    ensures FillsReported(Emit(g, k, price, size, timestamp))
         == FillsReported(g) + if CanFill(g, k, size) then 1 else 0
  {
    if CanFill(g, k, size) {
      hide FillsReported, FillOrder;
      PushCounts(g, Emit(g, k, price, size, timestamp), k.engineId, FillEvent(k, g.orders[k], price, size, timestamp));
    }
  }

  /** Answering requests reports no fills. */
  lemma {:induction false} DrainEngineCounts(g: Gateway, e: nat)
    requires GoodSessions(g)
    ensures FillsReported(DrainEngine(g, e).g) == FillsReported(g)
    decreases if e in g.sessions then g.sessions[e].requests.visible - g.sessions[e].requests.popped else 0
  {
    if Waiting(g, e) {
      ServeKeepsSessions(g, e);
      ServeCounts(g, e);
      hide Serve, FillsReported, GoodSessions, TransitionOf;
      DrainEngineCounts(Serve(g, e), e);
    }
  }

  lemma ServeCounts(g: Gateway, e: nat)
    requires GoodSessions(g) && Waiting(g, e)
    ensures FillsReported(Serve(g, e)) == FillsReported(g)
  {
    var ev := Answer(g.orders, e, NextRequest(g, e));
    assert !ev.Filling?;
    hide FillsReported, Answer, OrdersAfter;
    PushCounts(g, Serve(g, e), e, ev);
  }

  lemma {:induction false} DrainCounts(g: Gateway, order: seq<nat>)
    requires GoodSessions(g)
    ensures FillsReported(DrainAll(g, order).g) == FillsReported(g)
    decreases |order|
  {
    if order != [] {
      hide FillsReported, DrainEngine, GoodSessions;
      DrainEngineCounts(g, order[0]);
      DrainCounts(DrainEngine(g, order[0]).g, order[1..]);
    }
  }

  /** The mapping counters account for the number of mappings. */
  predicate Balanced(before: nat, r: BridgeResult, after: nat, r': BridgeResult) {
    && r'.mappingsErased >= r.mappingsErased && r'.mappingsAdded >= r.mappingsAdded
    && after + (r'.mappingsErased - r.mappingsErased) == before + (r'.mappingsAdded - r.mappingsAdded)
  }

  class OrderExecutionBridge {
    const server: OrderGatewayServer
    const simulator: FillSimulator
    var mappings: Mappings

    constructor (server: OrderGatewayServer, simulator: FillSimulator)
      ensures this.server == server && this.simulator == simulator && mappings == map[]
    {
      this.server, this.simulator, mappings := server, simulator, map[];
    }

    ghost predicate Valid()
      reads server, simulator, simulator.store, simulator.store.books.Values, simulator.views.Values
    {
      server.Valid() && simulator.Valid()
    }

    ghost function Value(): Bridge
      reads this, server, simulator, simulator.views.Values
    {
      Bridge(server.Value(), simulator.Values(), mappings)
    }

    ghost function Tables(): Store
      reads simulator.store, simulator.store.books.Values
    {
      simulator.store.Tables()
    }

    method EraseMapping(k: Key, r: BridgeResult) returns (r': BridgeResult)
      requires Valid()
      modifies `mappings, simulator.views.Values
      ensures Valid() && Value() == Erase(old(Value()), k)
      ensures r' == r.(mappingsErased := r.mappingsErased + if k in old(mappings) then 1 else 0)
      ensures Balanced(old(|mappings|), r, |mappings|, r')
    {
      hide OrderGatewayServer.Valid, FillSimulator.Valid, FillSimulator.Values, CancelIn;
      r' := r;
      if k !in mappings {
        return;
      }
      CancelSynthetic(k.engineId, mappings[k].syntheticId);
      assert (mappings - {k}).Keys == mappings.Keys - {k};
      mappings := mappings - {k};
      r' := r.(mappingsErased := r.mappingsErased + 1);
    }

    method CancelSynthetic(e: nat, id: nat)
      requires Valid()
      modifies simulator.views.Values
      ensures Valid() && simulator.Values() == CancelIn(old(simulator.Values()), e, id)
    {
      if e !in simulator.views {
        return;
      }
      hide OrderGatewayServer.Valid, HistoricalLobStore.Valid, EngineView.Valid;
      simulator.views[e].CancelSyntheticOrder(id);
    }

    method StoreOrEraseMapping(f: Fields, res: SimResult, r: BridgeResult) returns (r': BridgeResult)
      requires Valid()
      modifies `mappings, simulator.views.Values
      ensures Valid() && Value() == StoreOrErase(old(Value()), f, res)
      ensures
        var known := KeyFor(f) in old(mappings);
        r' == if res.syntheticId == 0 || res.remaining == 0
              then r.(mappingsErased := r.mappingsErased + if known then 1 else 0)
              else r.(mappingsAdded := r.mappingsAdded + if known then 0 else 1)
      ensures Balanced(old(|mappings|), r, |mappings|, r')
    {
      hide OrderGatewayServer.Valid, FillSimulator.Valid, FillSimulator.Values, Erase;
      var k := Key(f.engineId, f.orderId);
      if res.syntheticId == 0 || res.remaining == 0 {
        r' := EraseMapping(k, r);
        return;
      }
      var existed := k in mappings;
      var m := Mapping(res.syntheticId, f.instrumentId, f.side, f.price, res.remaining, f.timestamp);
      assert mappings[k := m].Keys == mappings.Keys + {k};
      mappings := mappings[k := m];
      r' := if existed then r else r.(mappingsAdded := r.mappingsAdded + 1);
    }

    method SubmitAcceptedOrder(f: Fields, r: BridgeResult) returns (r': BridgeResult)
      requires Valid() && GoodStore(Tables())
      modifies `mappings, server`sessions, server`orders, simulator.views.Values
      ensures Valid() && Value() == SubmitAccepted(old(Value()), Tables(), f)
      ensures r'.CountsAs(r) && Balanced(old(|mappings|), r, |mappings|, r')
      ensures r'.fillsEmitted - r.fillsEmitted == FillsReported(server.Value()) - FillsReported(old(server.Value()))
    {
      hide FillsReported, SubmitResult, SubmitViews, Erase, EmitAll, StoreOrErase, GoodStore, Balanced,
        FillSimulator.Valid, OrderGatewayServer.Valid, HistoricalLobStore.Tables, FillSimulator.Values;
      var res := simulator.SubmitLimitOrderResult(RequestFor(f));
      var emitted := EmitFills(f, res.fills);
      ghost var b := Value();
      r' := StoreOrEraseMapping(f, res, r.(fillsEmitted := r.fillsEmitted + emitted));
      BalanceIgnoresFills(old(|mappings|), r, r.(fillsEmitted := r.fillsEmitted + emitted), |mappings|, r');
    }

    method EmitFills(f: Fields, fills: seq<Level>) returns (emitted: nat)
      requires server.Valid()
      modifies server`sessions, server`orders
      ensures server.Valid() && server.Value() == EmitAll(old(server.Value()), KeyFor(f), fills, f.timestamp)
      ensures FillsReported(server.Value()) == FillsReported(old(server.Value())) + emitted
    {
      hide Emit, OrderGatewayServer.Valid, CanFill, FillsReported;
      emitted := 0;
      for n := 0 to |fills|
        invariant server.Valid()
        invariant FillsReported(server.Value()) == FillsReported(old(server.Value())) + emitted
        invariant server.Value() == EmitAll(old(server.Value()), KeyFor(f), fills[..n], f.timestamp)
      {
        assert fills[..n + 1][..n] == fills[..n];
        EmitCounts(server.Value(), KeyFor(f), fills[n].price, fills[n].size, f.timestamp);
        var ok := server.EmitFill(f.engineId, f.orderId, fills[n].price, fills[n].size, f.timestamp);
        if ok {
          emitted := emitted + 1;
        }
      }
      assert fills[..|fills|] == fills;
    }

    method Execute(t: Transition, r: BridgeResult) returns (r': BridgeResult)
      requires Valid() && GoodStore(Tables())
      modifies `mappings, server`sessions, server`orders, simulator.views.Values
      ensures Valid() && Tables() == old(Tables()) && Value() == ProcessTransition(old(Value()), Tables(), t)
      ensures TalliesOne(old(Value()), r, t, Value(), r')
    {
      hide Erase, SubmitAccepted, GoodStore, OrderGatewayServer.Valid, FillSimulator.Valid, FillSimulator.Values,
        HistoricalLobStore.Tables, Valid, FillsReported;
      if t.Refused? {
        return r.(rejected := r.rejected + 1);
      }
      match t.kind
      case NewOrder =>
        r' := SubmitAcceptedOrder(t.fields, r.(newAccepted := r.newAccepted + 1));
      case CancelOrder =>
        r' := EraseMapping(KeyFor(t.fields), r.(cancelAccepted := r.cancelAccepted + 1));
      case ModifyOrder =>
        r' := EraseMapping(KeyFor(t.fields), r.(modifyAccepted := r.modifyAccepted + 1));
        r' := SubmitAcceptedOrder(t.fields, r');
    }

    method ProcessTransitions(ts: seq<Transition>) returns (r: BridgeResult)
      requires Valid() && GoodStore(Tables())
      modifies `mappings, server`sessions, server`orders, simulator.views.Values
      ensures Valid() && Value() == ProcessAll(old(Value()), Tables(), ts)
      ensures Tallies(old(Value()), ts, Value(), r)
    {
      hide ProcessTransition, ProcessAll, GoodStore, Tables, Valid, Value, Tallies, TalliesOne;
      ghost var b, store := Value(), Tables();
      r := BridgeResult(0, 0, 0, 0, 0, 0, 0);
      NothingProcessed(b, store, r);
      for n := 0 to |ts|
        invariant Valid() && Tables() == store && Value() == ProcessAll(b, store, ts[..n])
        invariant Tallies(b, ts[..n], Value(), r)
      {
        OneMoreProcessed(b, store, ts, n);
        ghost var before, tallied := Value(), r;
        r := Execute(ts[n], r);
        OneMoreTallied(b, before, tallied, ts, n, Value(), r);
      }
      assert ts[..|ts|] == ts;
    }

    /** Drain every request, then execute the transitions in order. */
    method DrainAndProcessRequests() returns (transitions: seq<Transition>, r: BridgeResult)
      requires Valid()
      modifies `mappings, server`sessions, server`orders, simulator.views.Values
      ensures Valid() && GoodStore(Tables())
      ensures transitions == DrainAll(old(server.Value()), server.engineOrder).transitions
      ensures Value() == Drain(old(Value()), Tables(), server.engineOrder)
      ensures Tallies(old(Value()), transitions, Value(), r)
    {
      StoreGood();
      hide Tallies, ProcessAll, DrainAll, GoodStore, Valid, Value, Tables;
      ghost var b, order := Value(), server.engineOrder;
      transitions := AnswerRequests();
      r := ProcessTransitions(transitions);
      TalliesFromStart(b, order, Value(), r);
    }

    lemma StoreGood()
      requires Valid()
      ensures GoodStore(Tables()) && GoodSessions(Value().g) && Value().g == server.Value()
    {
      simulator.store.TablesGood();
    }

    /** The first half of a drain. */
    method AnswerRequests() returns (transitions: seq<Transition>)
      requires Valid()
      modifies server`sessions, server`orders
      ensures Valid() && Tables() == old(Tables()) && GoodSessions(old(Value()).g)
      ensures
        var d := DrainAll(old(Value()).g, server.engineOrder);
        Value() == old(Value()).(g := d.g) && transitions == d.transitions
    {
      hide DrainAll, FillSimulator.Valid, FillSimulator.Values, HistoricalLobStore.Tables;
      transitions := server.DrainRequests();
    }
  }

  /** Answering the requests first changes nothing in the tally. */
  lemma TalliesFromStart(b: Bridge, order: seq<nat>, b': Bridge, r: BridgeResult)
    requires GoodSessions(b.g)
    requires
      var d := DrainAll(b.g, order);
      Tallies(b.(g := d.g), d.transitions, b', r)
    ensures Tallies(b, DrainAll(b.g, order).transitions, b', r)
  {
    DrainCounts(b.g, order);
    hide FillsReported, DrainAll, Counted;
  }

  /** The result adds up for a whole list of transitions: each counter is the number of its kind, the fills emitted are
      those added to the channels, and the mappings added and erased account for their number. */
  ghost predicate Tallies(b: Bridge, ts: seq<Transition>, b': Bridge, r: BridgeResult) {
    && Counted(r, ts)
    && r.fillsEmitted == FillsReported(b'.g) - FillsReported(b.g)
    && |b'.mappings| + r.mappingsErased == |b.mappings| + r.mappingsAdded
  }

  /** The same for one transition. */
  ghost predicate TalliesOne(b: Bridge, r: BridgeResult, t: Transition, b': Bridge, r': BridgeResult) {
    && r'.CountsAs(OneUp(r, t))
    && r'.fillsEmitted - r.fillsEmitted == FillsReported(b'.g) - FillsReported(b.g)
    && Balanced(|b.mappings|, r, |b'.mappings|, r')
  }

  lemma NothingProcessed(b: Bridge, store: Store, r: BridgeResult)
    requires GoodStore(store) && r == BridgeResult(0, 0, 0, 0, 0, 0, 0)
    ensures ProcessAll(b, store, []) == b && Tallies(b, [], b, r)
  {
  }

  lemma OneMoreTallied(
    b: Bridge, b1: Bridge, r: BridgeResult, ts: seq<Transition>, n: nat, b': Bridge, r': BridgeResult)
    requires n < |ts| && Tallies(b, ts[..n], b1, r) && TalliesOne(b1, r, ts[n], b', r')
    ensures Tallies(b, ts[..n + 1], b', r')
  {
    assert ts[..n + 1][..n] == ts[..n];
    hide FillsReported;
  }

  function OneUp(r: BridgeResult, t: Transition): BridgeResult {
    match t
    case Refused(_, _, _) => r.(rejected := r.rejected + 1)
    case Granted(NewOrder, _, _) => r.(newAccepted := r.newAccepted + 1)
    case Granted(CancelOrder, _, _) => r.(cancelAccepted := r.cancelAccepted + 1)
    case Granted(ModifyOrder, _, _) => r.(modifyAccepted := r.modifyAccepted + 1)
  }

  lemma OneMoreProcessed(b: Bridge, store: Store, ts: seq<Transition>, n: nat)
    requires GoodStore(store) && n < |ts|
    ensures ProcessAll(b, store, ts[..n + 1]) == ProcessTransition(ProcessAll(b, store, ts[..n]), store, ts[n])
  {
    assert ts[..n + 1][..n] == ts[..n];
  }

  lemma BalanceIgnoresFills(before: nat, r: BridgeResult, r1: BridgeResult, after: nat, r': BridgeResult)
    requires r1 == r.(fillsEmitted := r1.fillsEmitted) && Balanced(before, r1, after, r')
    ensures Balanced(before, r, after, r')
  {
  }
}
