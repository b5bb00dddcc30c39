/** Two runs of the bridge, from the opening on, that leave an order unlinked: a modify that names another
    instrument, and a modify that supersedes a new order within one drain. */
module BridgeExamples {
  import opened Domain
  import opened Totals
  import opened Ladders
  import opened RestingOrders
  import opened Channels
  import opened HistoricalLobs
  import opened HistoricalLobStores
  import opened EngineViews
  import opened FillSimulators
  import opened FillSimulation
  import opened Gateways
  import opened Bridges
  import opened BridgeRuns
  import opened BridgeHypotheses

  /** Engine 1 with a session whose channels publish every message, and a view. */
  ghost function Start(): (s: System)
    ensures SystemOpening(s) && Everyone(s.b)
  {
    var session := Session(Empty(1), Empty(1));
    System(Bridge(Gateway(map[], map[1 := session]), map[1 := View(1, map[], map[])], map[]), map[])
  }

  const ORDER: seq<nat> := [1]

  const KEY: Key := Key(1, 7)

  function Bid5(kind: Kind, instrumentId: nat): OrderRequest {
    OrderRequest(kind, Fields(1, 7, instrumentId, Bid, 100, 5, 0, New))
  }

  /** Session 1 shows exactly the given requests beyond those already taken. */
  ghost predicate Shows(g: Gateway, reqs: seq<OrderRequest>) {
    && 1 in g.sessions
    && var c := g.sessions[1].requests;
       c.batch == 1 && c.Valid() && c.visible == |c.pushed| && c.pushed[c.popped..] == reqs
  }

  lemma SendShows(s: System, req: OrderRequest, reqs: seq<OrderRequest>)
    requires Running(s) && Shows(s.b.g, reqs)
    ensures
      var s' := SystemNext(s, Client(SendRequest(1, req)), ORDER);
      && Shows(s'.b.g, reqs + [req]) && s'.b.g.orders == s.b.g.orders
      && s'.b.views == s.b.views && s'.store == s.store
  {
    hide GoodGateway, GoodStore;
  }

  lemma DrainsShown(g: Gateway, reqs: seq<OrderRequest>)
    requires GoodSessions(g) && Shows(g, reqs)
    ensures
      var d := DrainAll(g, ORDER);
      var items := seq(|reqs|, i requires 0 <= i < |reqs| => Item(1, reqs[i]));
      && d.transitions == TransitionsRun(g.orders, items) && d.g.orders == OrdersRun(g.orders, items)
      && Shows(d.g, [])
  {
    var d, first := DrainAll(g, ORDER), DrainEngine(g, 1);
    var items := seq(|reqs|, i requires 0 <= i < |reqs| => Item(1, reqs[i]));
    assert ORDER[1..] == [];
    assert Unread(g, 1) == items;
    DrainEngineMeaning(g, 1);
    hide OrdersRun, TransitionsRun, DrainEngine, Unread, GoodSessions;
    assert DrainAll(first.g, []) == Drained(first.g, []);
    assert d.g == first.g && d.transitions == first.transitions + [];
  }

  lemma RunOneMore(start: System, steps: seq<SystemStep>, step: SystemStep)
    requires SystemOpening(start)
    ensures SystemRun(start, steps + [step], ORDER) == SystemNext(SystemRun(start, steps, ORDER), step, ORDER)
  {
    assert (steps + [step])[..|steps|] == steps;
    hide SystemNext, SystemOpening, Running;
  }

  lemma SendLinked(s: System, req: OrderRequest)
    requires SystemInv(s)
    ensures SystemInv(SystemNext(s, Client(SendRequest(1, req)), ORDER))
  {
    NextRunning(s, Client(SendRequest(1, req)), ORDER);
    StepLinksIff(s, Client(SendRequest(1, req)), ORDER);
    hide Running, AllLinked, SystemNext;
  }

  // ---- a modify naming another instrument ----

  /** The system as far as the first example is concerned. */
  ghost predicate Quiet(s: System, reqs: seq<OrderRequest>, order: Option<OrderSnapshot>) {
    && SystemInv(s) && Shows(s.b.g, reqs) && 1 in s.b.views && s.store == map[]
    && Lookup(s.b.g.orders, KEY) == order
  }

  /** Without historical volume nothing is filled. */
  lemma NothingFilled(views: Views, f: Fields)
    requires Admitted(views, RequestFor(f))
    ensures GoodStore(map[]) && FillsNothing(views, map[], f) && !FillsAll(views, map[], f)
  {
    var visible := VisibleTo(views, map[], f);
    FillsMean(views, map[], f);
    assert visible == map[];
    assert InReach(visible, f.side, f.price) == map[];
    hide FillsAll, FillsNothing, CrossingVolume;
  }

  lemma OneItem(orders: Gateways.Orders, req: OrderRequest)
    ensures TransitionsRun(orders, [Item(1, req)]) == [TransitionOf(orders, 1, req)]
    ensures OrdersRun(orders, [Item(1, req)]) == OrdersAfter(orders, 1, req)
  {
    assert TransitionsRun(OrdersAfter(orders, 1, req), []) == [];
    hide TransitionOf, OrdersAfter;
  }

  /** A drain that shows one request. */
  lemma OneShown(g: Gateway, req: OrderRequest)
    requires GoodSessions(g) && Shows(g, [req])
    ensures
      var d := DrainAll(g, ORDER);
      && d.transitions == [TransitionOf(g.orders, 1, req)] && d.g.orders == OrdersAfter(g.orders, 1, req)
      && Shows(d.g, [])
  {
    DrainsShown(g, [req]);
    OneItem(g.orders, req);
    hide DrainAll, OrdersAfter, TransitionOf, Shows, GoodSessions, TransitionsRun, OrdersRun;
    assert seq(1, i requires 0 <= i < 1 => Item(1, [req][i])) == [Item(1, req)];
  }

  const ACCEPTED: OrderSnapshot := OrderSnapshot(1, Bid, 100, 5, 5, Gateways.Accepted, 0)

  lemma NewGranted(s: System)
    requires Quiet(s, [Bid5(NewOrder, 1)], None)
    ensures
      var d := DrainAll(s.b.g, ORDER);
      var t := Granted(NewOrder, Bid5(NewOrder, 1).fields.(status := Gateways.Accepted), ACCEPTED);
      && d.transitions == [t] && Shows(d.g, []) && Lookup(d.g.orders, KEY) == Some(ACCEPTED)
  {
    OneShown(s.b.g, Bid5(NewOrder, 1));
    hide DrainAll, Shows, SystemInv;
  }

  lemma FirstDrain(s: System)
    requires Quiet(s, [Bid5(NewOrder, 1)], None)
    ensures Quiet(SystemNext(s, DrainNow, ORDER), [], Some(ACCEPTED))
  {
    var d, s' := DrainAll(s.b.g, ORDER), SystemNext(s, DrainNow, ORDER);
    NewGranted(s);
    NextRunning(s, DrainNow, ORDER);
    NextKeepsEngines(s, DrainNow, ORDER);
    SoleNewLinks(s);
    assert s'.b == Drain(s.b, s.store, ORDER);
    UnfilledGateway(s.b.(g := d.g), d.transitions[0]);
    hide DrainAll, Drain, AllLinked, Running, SystemNext, Shows;
  }

  lemma SoleNewLinks(s: System)
    requires Quiet(s, [Bid5(NewOrder, 1)], None)
    ensures AllLinked(Drain(s.b, s.store, ORDER))
  {
    NewGranted(s);
    var ts := DrainAll(s.b.g, ORDER).transitions;
    hide DrainAll, SystemInv, Drain, AllLinked, Linked, LinksInTurn, Erase, MidDrain, FillsAll, Shows;
    DrainLinksIff(s, ORDER);
    forall n | LastGrant(ts, n)
      ensures LinksInTurn(s, ORDER, n)
    {
      assert n == 0 && OnlyGrant(ts, 0);
      SoleRequestLinksIff(s, ORDER, 0);
      AnyDrainLinksIff(s, ORDER, 0);
    }
  }

  lemma UnfilledGateway(b: Bridge, t: Transition)
    requires t.Granted? && t.kind == NewOrder && Admitted(b.views, RequestFor(t.fields))
    ensures GoodStore(map[]) && ProcessAll(b, map[], [t]).g == b.g
  {
    NothingFilled(b.views, t.fields);
    assert [t][..0] == [];
    assert ProcessAll(b, map[], []) == b;
    var g := EmitAll(b.g, KeyFor(t.fields), [], t.fields.timestamp);
    hide SubmitResult, SubmitViews, Admitted;
    assert g == b.g;
  }

  lemma ModifyGranted(s: System)
    requires Quiet(s, [Bid5(ModifyOrder, 2)], Some(ACCEPTED))
    ensures
      var t := Granted(ModifyOrder, Bid5(ModifyOrder, 2).fields.(status := Gateways.Accepted), ACCEPTED);
      DrainAll(s.b.g, ORDER).transitions == [t]
  {
    OneShown(s.b.g, Bid5(ModifyOrder, 2));
    hide DrainAll, Shows, SystemInv;
  }

  lemma SecondDrain(s: System)
    requires Quiet(s, [Bid5(ModifyOrder, 2)], Some(ACCEPTED))
    ensures !Linked(SystemNext(s, DrainNow, ORDER).b, KEY)
  {
    ModifyGranted(s);
    var ts := DrainAll(s.b.g, ORDER).transitions;
    assert OnlyGrant(ts, 0) && !OwnInstrument(ts[0]);
    hide DrainAll, Drain, Linked, Erase, MidDrain, FillsAll, Shows, OnlyGrant, OwnInstrument;
    ModifyLinksIff(s, ORDER, 0);
    var views := Erase(MidDrain(s, ORDER, 0), KEY).views;
    if Admitted(views, RequestFor(ts[0].fields)) {
      NothingFilled(views, ts[0].fields);
    } else {
      NotTaken(views, ts[0].fields);
    }
  }

  lemma NotTaken(views: Views, f: Fields)
    requires !Admitted(views, RequestFor(f))
    ensures GoodStore(map[]) && !FillsAll(views, map[], f)
  {
  }

  /** Send a new order for instrument 1, drain, send a modify that names instrument 2, drain. */
  ghost function ForeignSteps(): seq<SystemStep> {
    [Client(SendRequest(1, Bid5(NewOrder, 1))), DrainNow, Client(SendRequest(1, Bid5(ModifyOrder, 2))), DrainNow]
  }

  lemma QuietSend(s: System, req: OrderRequest, order: Option<OrderSnapshot>)
    requires Quiet(s, [], order)
    ensures Quiet(SystemNext(s, Client(SendRequest(1, req)), ORDER), [req], order)
  {
    SendLinked(s, req);
    SendShows(s, req, []);
    assert [] + [req] == [req];
    hide SystemInv, Shows, SystemNext;
  }

  lemma QuietAtStart()
    ensures Quiet(Start(), [], None) && SystemRun(Start(), [], ORDER) == Start()
  {
    OpeningLinked(Start());
    hide SystemInv;
  }

  /** Its order is then mapped under the wrong instrument. */
  lemma ForeignModifyUnlinks()
    ensures !Linked(SystemRun(Start(), ForeignSteps(), ORDER).b, KEY)
  {
    hide Quiet, SystemNext, SystemRun, Start, Linked, Bid5;
    var place, change := Bid5(NewOrder, 1), Bid5(ModifyOrder, 2);
    var a, b := [Client(SendRequest(1, place))], Client(SendRequest(1, change));
    QuietAtStart();
    QuietSend(Start(), place, None);
    RunOneMore(Start(), [], a[0]);
    assert [] + a == a;
    FirstDrain(SystemRun(Start(), a, ORDER));
    RunOneMore(Start(), a, DrainNow);
    QuietSend(SystemRun(Start(), a + [DrainNow], ORDER), change, Some(ACCEPTED));
    RunOneMore(Start(), a + [DrainNow], b);
    SecondDrain(SystemRun(Start(), a + [DrainNow] + [b], ORDER));
    RunOneMore(Start(), a + [DrainNow] + [b], DrainNow);
    assert a + [DrainNow] + [b] + [DrainNow] == ForeignSteps();
  }

  // ---- a modify that supersedes a new order ----

  /** Two units offered at the limit. */
  const OFFER: Event := Event(0, 9, Ask, 100, 2, Add, 1, 0, 0)

  ghost function Offered(): Store {
    StoreApply(map[], OFFER)
  }

  lemma OfferedLevels()
    ensures GoodStore(Offered()) && HistLevels(Offered(), 1, Ask) == map[100 := 2]
  {
    StoreApplyKeepsGood(map[], OFFER);
    var plain: RestingOrders.Orders := map[9 := Resting(Ask, 100, 2)];
    assert Plain(Offered()[1]) == plain;
    NoOrdersNoLevels(Ask);
    InsertionKeepsAggregates(map[], map[], Ask, 9, Resting(Ask, 100, 2));
    assert AddVolume(map[], 100, 2) == map[100 := 2];
    AggregatesUnique(SideLevels(plain, Ask), map[100 := 2], plain, Ask);
  }

  ghost predicate Stocked(s: System, reqs: seq<OrderRequest>) {
    && SystemInv(s) && Shows(s.b.g, reqs) && s.store == Offered()
    && 1 in s.b.views && s.b.views[1].consumed == map[] && Lookup(s.b.g.orders, KEY) == None
  }

  lemma OfferStocks()
    ensures Stocked(SystemNext(Start(), Market(OFFER), ORDER), [])
  {
    OpeningLinked(Start());
    NextRunning(Start(), Market(OFFER), ORDER);
    hide AllLinked, Running;
  }

  lemma StockedSend(s: System, reqs: seq<OrderRequest>, req: OrderRequest)
    requires Stocked(s, reqs)
    ensures Stocked(SystemNext(s, Client(SendRequest(1, req)), ORDER), reqs + [req])
  {
    SendLinked(s, req);
    SendShows(s, req, reqs);
    hide SystemInv, Shows, SystemNext, Offered;
  }

  lemma BothGranted(s: System)
    requires Stocked(s, [Bid5(NewOrder, 1), Bid5(ModifyOrder, 1)])
    ensures IsPair(DrainAll(s.b.g, ORDER).transitions)
  {
    var orders, place, change := s.b.g.orders, Bid5(NewOrder, 1), Bid5(ModifyOrder, 1);
    assert Shows(s.b.g, [place, change]) && Lookup(orders, KEY) == None;
    PairAnswers(orders);
    hide Stocked, Shows, DrainAll, TransitionsRun, OrdersRun, IsPair, Bid5;
    DrainsShown(s.b.g, [place, change]);
    assert seq(2, i requires 0 <= i < 2 => Item(1, [place, change][i])) == [Item(1, place), Item(1, change)];
  }

  lemma PairAnswers(orders: Gateways.Orders)
    requires Lookup(orders, KEY) == None
    ensures IsPair(TransitionsRun(orders, [Item(1, Bid5(NewOrder, 1)), Item(1, Bid5(ModifyOrder, 1))]))
  {
    TwoItems(orders, Bid5(NewOrder, 1), Bid5(ModifyOrder, 1));
    hide TransitionsRun;
  }

  lemma TwoItems(orders: Gateways.Orders, first: OrderRequest, second: OrderRequest)
    ensures TransitionsRun(orders, [Item(1, first), Item(1, second)])
         == [TransitionOf(orders, 1, first), TransitionOf(OrdersAfter(orders, 1, first), 1, second)]
  {
    hide OrdersAfter, TransitionOf;
    assert [Item(1, first), Item(1, second)][1..] == [Item(1, second)];
    OneItem(OrdersAfter(orders, 1, first), second);
  }

  /** The first request meets the offer; the second is larger than all that was ever offered. */
  lemma OfferFills(views: Views, f: Fields)
    requires f == Bid5(NewOrder, 1).fields.(status := Gateways.Accepted) && 1 in views
    ensures GoodStore(Offered()) && !FillsAll(views, Offered(), f)
    ensures views[1].consumed == map[] ==> !FillsNothing(views, Offered(), f)
  {
    OfferedLevels();
    FillsMean(views, Offered(), f);
    var visible := VisibleTo(views, Offered(), f);
    assert visible.Keys <= {100} && At(visible, 100) <= 2;
    AtMostTwo(visible, f.side, f.price);
    assert views[1].consumed == map[] ==> 100 in visible;
    hide FillsAll, FillsNothing, CrossingVolume, Offered;
  }

  lemma AtMostTwo(visible: Levels, side: Side, limit: int)
    requires visible.Keys <= {100} && At(visible, 100) <= 2
    ensures CrossingVolume(visible, side, limit) <= 2
  {
    var reach, none: map<int, int> := InReach(visible, side, limit), map[];
    if 100 in reach {
      assert reach == none[100 := visible[100]];
      TotalUpdate(none, 100, visible[100]);
      assert none - {100} == none;
    } else {
      assert reach == none;
    }
  }

  lemma SupersededViews(s: System)
    requires Stocked(s, [Bid5(NewOrder, 1), Bid5(ModifyOrder, 1)]) && |DrainAll(s.b.g, ORDER).transitions| == 2
    requires LastGrant(DrainAll(s.b.g, ORDER).transitions, 1)
    ensures Erase(MidDrain(s, ORDER, 0), KEY).views == s.b.views
    ensures 1 in Erase(MidDrain(s, ORDER, 1), KEY).views
  {
    assert Linked(s.b, KEY);
    assert DrainAll(s.b.g, ORDER).transitions[..0] == [];
    MidDrainFacts(s, ORDER, 1, 1);
    hide DrainAll, LastGrant, Shows, Linked, GoodGateway, GoodStore, Sound, ProcessTransition, Offered;
  }

  /** The two transitions of the example. */
  predicate IsPair(ts: seq<Transition>) {
    var f := Bid5(NewOrder, 1).fields.(status := Gateways.Accepted);
    ts == [Granted(NewOrder, f, ACCEPTED), Granted(ModifyOrder, f, ACCEPTED)]
  }

  lemma PairGrants(ts: seq<Transition>)
    requires IsPair(ts)
    ensures |ts| == 2 && LastGrant(ts, 1) && ts[1].kind == ModifyOrder && OwnInstrument(ts[1])
    ensures KeyFor(ts[1].fields) == KEY && GrantFor(ts, 0, KEY)
    ensures !GrantWithin(ts, 0, 0, KEY) && !GrantWithin(ts, 1, 1, KEY)
    ensures ts[0].fields == ts[1].fields == Bid5(NewOrder, 1).fields.(status := Gateways.Accepted)
  {
  }

  lemma SupersededDrain(s: System)
    requires Stocked(s, [Bid5(NewOrder, 1), Bid5(ModifyOrder, 1)])
    ensures !Linked(SystemNext(s, DrainNow, ORDER).b, KEY)
  {
    assert Running(s) && SystemNext(s, DrainNow, ORDER).b == Drain(s.b, s.store, ORDER);
    assert SystemInv(s) && 1 in s.b.views && s.b.views[1].consumed == map[] && s.store == Offered();
    hide DrainAll, Drain, Linked, Erase, MidDrain, FillsAll, FillsNothing, Stocked, LastGrant, OwnInstrument, GrantFor,
      GrantWithin, Offered, SystemInv, Running, IsPair, SystemNext, Bid5;
    BothGranted(s);
    PairGrants(DrainAll(s.b.g, ORDER).transitions);
    SupersededViews(s);
    OfferFills(Erase(MidDrain(s, ORDER, 0), KEY).views, DrainAll(s.b.g, ORDER).transitions[0].fields);
    OfferFills(Erase(MidDrain(s, ORDER, 1), KEY).views, DrainAll(s.b.g, ORDER).transitions[1].fields);
    SupersededLinksIff(s, ORDER, 0, 1);
  }

  /** Offer two units, send a new order for five and a modify that repeats its terms, drain. */
  ghost function SupersededSteps(): seq<SystemStep> {
    [Market(OFFER), Client(SendRequest(1, Bid5(NewOrder, 1))), Client(SendRequest(1, Bid5(ModifyOrder, 1))), DrainNow]
  }

  /** The fill of the new order is then booked against the modified one, and the mapping knows nothing of it. */
  lemma SupersededOrderUnlinks()
    ensures !Linked(SystemRun(Start(), SupersededSteps(), ORDER).b, KEY)
  {
    hide Stocked, SystemNext, SystemRun, Start, Linked, Bid5;
    var place, change := Bid5(NewOrder, 1), Bid5(ModifyOrder, 1);
    var a, b, c := [Market(OFFER)], Client(SendRequest(1, place)), Client(SendRequest(1, change));
    QuietAtStart();
    OfferStocks();
    RunOneMore(Start(), [], Market(OFFER));
    assert [] + a == a && [] + [place] == [place] && [place] + [change] == [place, change];
    StockedSend(SystemRun(Start(), a, ORDER), [], place);
    RunOneMore(Start(), a, b);
    StockedSend(SystemRun(Start(), a + [b], ORDER), [place], change);
    RunOneMore(Start(), a + [b], c);
    SupersededDrain(SystemRun(Start(), a + [b] + [c], ORDER));
    RunOneMore(Start(), a + [b] + [c], DrainNow);
    assert a + [b] + [c] + [DrainNow] == SupersededSteps();
  }
}
