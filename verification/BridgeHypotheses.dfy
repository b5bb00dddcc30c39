/** What the exact condition of the bridge comes to: runs in which every drain is orderly, a sole request of an
    order, and a request superseded within its drain. */
module BridgeHypotheses {
  import opened Domain
  import opened Ladders
  import opened EngineViews
  import opened HistoricalLobStores
  import opened FillSimulators
  import opened FillSimulation
  import opened Gateways
  import opened Bridges
  import opened BridgeRuns

  /** Every session has a view. */
  ghost predicate Everyone(b: Bridge) {
    forall e :: e in b.g.sessions ==> e in b.views
  }

  // ---- one accepted request of an order ----

  /** The only accepted request of its order. */
  ghost predicate OnlyGrant(ts: seq<Transition>, n: int) {
    LastGrant(ts, n) && !GrantWithin(ts, 0, n, KeyFor(ts[n].fields))
  }

  /** An accepted modify names the instrument of the order it modifies. */
  ghost predicate OwnInstrument(t: Transition) {
    t.Granted? && t.kind == ModifyOrder ==> t.fields.instrumentId == t.snapshot.instrumentId
  }

  /** Part way through a drain: the same engines, an order's last accepted request still to come has its order at
      most worn, and at an order's first one the order is as the gateway left it. */
  lemma MidDrainFacts(s: System, order: seq<nat>, i: nat, n: nat)
    requires SystemInv(s) && Distinct(order) && LastGrant(DrainAll(s.b.g, order).transitions, n) && i <= n
    ensures
      var ts, b := DrainAll(s.b.g, order).transitions, MidDrain(s, order, i);
      var t := ts[n];
      var k := KeyFor(t.fields);
      && b.views.Keys == s.b.views.Keys && GrantShape(t) && GoodOrder(t.snapshot)
      && k in b.g.orders && Wears(t.snapshot, b.g.orders[k])
      && (!GrantWithin(ts, 0, i, k) ==> b.g.orders[k] == t.snapshot)
  {
    var d := DrainAll(s.b.g, order);
    var b, k := s.b.(g := d.g), KeyFor(d.transitions[n].fields);
    DrainPrepares(s, order);
    EveryPrefixExecuted(b, s.store, d.transitions, i);
    assert k in b.g.orders;
    OrdersGood(b.g, k);
    assert GrantWithin(d.transitions, 0, i, k) || Same(b, MidDrain(s, order, i), k);
    hide GoodGateway, Sound, DrainAll, ProcessAll, GrantShape, GoodOrder, GrantWithin, LastGrant, AllLinked, GoodStore;
  }

  /** Whether the simulator takes terms with an active side, a price and a size, of a known instrument. */
  lemma Takes(b: Bridge, k: Key, f: Fields)
    requires ActiveSide(f.side) && f.price != UNDEFINED_PRICE && f.size > 0
    ensures Admitted(Erase(b, k).views, RequestFor(f)) <==> f.instrumentId != 0 && f.engineId in b.views
  {
  }

  /** An order with one accepted request in the drain is linked if and only if that is a cancel, or fills at
      once, or its engine has a view and it names the instrument of the order. */
  lemma SoleRequestLinksIff(s: System, order: seq<nat>, n: nat)
    requires SystemInv(s) && Distinct(order) && OnlyGrant(DrainAll(s.b.g, order).transitions, n)
    ensures
      var t := DrainAll(s.b.g, order).transitions[n];
      var k := KeyFor(t.fields);
      Linked(Drain(s.b, s.store, order), k) <==>
        || t.kind == CancelOrder
        || FillsAll(Erase(MidDrain(s, order, n), k).views, s.store, t.fields)
        || (k.engineId in s.b.views && t.fields.instrumentId == t.snapshot.instrumentId)
  {
    MidDrainFacts(s, order, n, n);
    AnyDrainLinksIff(s, order, n);
    var t, b := DrainAll(s.b.g, order).transitions[n], MidDrain(s, order, n);
    if t.kind != CancelOrder {
      Takes(b, KeyFor(t.fields), t.fields);
    }
    assert Erase(b, KeyFor(t.fields)).g == b.g;
    hide SystemInv, Drain, MidDrain, DrainAll, Linked, FillsAll, Erase, Admitted, GrantWithin;
  }

  /** The case of a modify, by an engine that has a view. */
  lemma ModifyLinksIff(s: System, order: seq<nat>, n: nat)
    requires SystemInv(s) && Distinct(order) && OnlyGrant(DrainAll(s.b.g, order).transitions, n)
    requires DrainAll(s.b.g, order).transitions[n].kind == ModifyOrder
    requires DrainAll(s.b.g, order).transitions[n].fields.engineId in s.b.views
    ensures
      var t := DrainAll(s.b.g, order).transitions[n];
      var k := KeyFor(t.fields);
      Linked(Drain(s.b, s.store, order), k) <==>
        OwnInstrument(t) || FillsAll(Erase(MidDrain(s, order, n), k).views, s.store, t.fields)
  {
    SoleRequestLinksIff(s, order, n);
    hide SystemInv, Drain, MidDrain, DrainAll, Linked, FillsAll, Erase;
  }

  // ---- two accepted requests of an order ----

  /** After a drain that accepts two requests of an order, wherever they stand in it, the second a modify that
      names the order's own instrument by an engine with a view: the order is linked if and only if
      executing the first fills nothing or executing the second fills all. */
  lemma SupersededLinksIff(s: System, order: seq<nat>, i: nat, n: nat)
    requires SystemInv(s) && Distinct(order) && i < n && LastGrant(DrainAll(s.b.g, order).transitions, n)
    requires
      var ts := DrainAll(s.b.g, order).transitions;
      var k := KeyFor(ts[n].fields);
      && ts[n].kind == ModifyOrder && OwnInstrument(ts[n]) && k.engineId in s.b.views
      && GrantFor(ts, i, k) && !GrantWithin(ts, 0, i, k) && !GrantWithin(ts, i + 1, n, k)
    ensures
      var ts := DrainAll(s.b.g, order).transitions;
      var k := KeyFor(ts[n].fields);
      Linked(Drain(s.b, s.store, order), k) <==>
        || FillsNothing(Erase(MidDrain(s, order, i), k).views, s.store, ts[i].fields)
        || FillsAll(Erase(MidDrain(s, order, n), k).views, s.store, ts[n].fields)
  {
    var ts := DrainAll(s.b.g, order).transitions;
    var t, k, b := ts[n], KeyFor(ts[n].fields), MidDrain(s, order, n);
    MidDrainFacts(s, order, n, n);
    FirstWears(s, order, i, n);
    AnyDrainLinksIff(s, order, n);
    Takes(b, k, t.fields);
    assert Erase(b, k).g == b.g;
    hide SystemInv, Drain, MidDrain, DrainAll, Linked, FillsAll, FillsNothing, Erase, Admitted, GrantWithin;
  }

  /** What the first of two requests leaves for the second. */
  lemma FirstWears(s: System, order: seq<nat>, i: nat, n: nat)
    requires SystemInv(s) && Distinct(order) && i < n && LastGrant(DrainAll(s.b.g, order).transitions, n)
    requires
      var ts := DrainAll(s.b.g, order).transitions;
      var k := KeyFor(ts[n].fields);
      ts[n].kind != CancelOrder && GrantFor(ts, i, k) && !GrantWithin(ts, 0, i, k) && !GrantWithin(ts, i + 1, n, k)
    ensures
      var ts := DrainAll(s.b.g, order).transitions;
      var k, b := KeyFor(ts[n].fields), MidDrain(s, order, n);
      && k in b.g.orders
      && (b.g.orders[k].remaining == ts[n].fields.size <==>
            FillsNothing(Erase(MidDrain(s, order, i), k).views, s.store, ts[i].fields))
      && (Open(b.g.orders, k) <==> b.g.orders[k].remaining > 0)
  {
    var ts := DrainAll(s.b.g, order).transitions;
    var k := KeyFor(ts[n].fields);
    assert Running(s) && n < |ts|;
    hide SystemInv, Distinct, DrainAll, GrantFor, GrantWithin, LastGrant, MidDrain, Same, Ready, ProcessTransition,
      FillsNothing, Running, GoodOrder;
    MidDrainFacts(s, order, i, n);
    FirstExecuted(s, order, i, n);
    ExecutionWears(MidDrain(s, order, i), s.store, ts[i]);
    SameOrder(MidDrain(s, order, i + 1), MidDrain(s, order, n), k);
  }

  lemma FirstExecuted(s: System, order: seq<nat>, i: nat, n: nat)
    requires SystemInv(s) && Distinct(order) && i < n && LastGrant(DrainAll(s.b.g, order).transitions, n)
    requires
      var ts := DrainAll(s.b.g, order).transitions;
      GrantFor(ts, i, KeyFor(ts[n].fields)) && !GrantWithin(ts, i + 1, n, KeyFor(ts[n].fields))
    ensures
      var ts := DrainAll(s.b.g, order).transitions;
      && ts[i].Granted? && ts[i].kind != CancelOrder && KeyFor(ts[i].fields) == KeyFor(ts[n].fields)
      && Ready(MidDrain(s, order, i), ts[i])
      && MidDrain(s, order, i + 1) == ProcessTransition(MidDrain(s, order, i), s.store, ts[i])
      && Same(MidDrain(s, order, i + 1), MidDrain(s, order, n), KeyFor(ts[n].fields))
  {
    var d := DrainAll(s.b.g, order);
    var ts, b := d.transitions, s.b.(g := d.g);
    assert n < |ts| && Running(s) && ts[..i + 1][..i] == ts[..i];
    hide Prepared, Executed, Same, DrainAll, SystemInv, Running, GoodSessions, GrantWithin, Ready, ProcessTransition,
      Distinct, Lookup, LastGrant;
    NoCancelBefore(s, order, i, n);
    DrainIsPrepared(s, order);
    EveryPrefixExecuted(b, s.store, ts, i);
    ExecutedReady(b, MidDrain(s, order, i), ts, i);
    OthersLeaveAlone(b, s.store, ts, i + 1, n, KeyFor(ts[n].fields));
  }

  lemma DrainIsPrepared(s: System, order: seq<nat>)
    requires SystemInv(s) && Distinct(order)
    ensures
      var d := DrainAll(s.b.g, order);
      Prepared(s.b.(g := d.g), d.transitions)
  {
    hide Prepared, DrainAll, Same, Distinct, LastGrant, GrantWithin;
    DrainPrepares(s, order);
  }

  lemma NoCancelBefore(s: System, order: seq<nat>, i: nat, n: nat)
    requires SystemInv(s) && Distinct(order) && i < n && LastGrant(DrainAll(s.b.g, order).transitions, n)
    requires
      var ts := DrainAll(s.b.g, order).transitions;
      GrantFor(ts, i, KeyFor(ts[n].fields))
    ensures DrainAll(s.b.g, order).transitions[i].kind != CancelOrder
  {
    hide DrainAll, GatewayInv, GoodSessions, AllLinked, GrantWithin, OrdersRun, TransitionsRun, Backlog, Distinct;
    DrainAllMeaning(s.b.g, order);
    TransitionsLength(s.b.g.orders, Backlog(s.b.g, order));
    FirstIsNoCancel(s.b.g.orders, Backlog(s.b.g, order), i, n);
  }

  lemma ExecutionWears(b: Bridge, store: Store, t: Transition)
    requires GoodStore(store) && Ready(b, t) && t.kind != CancelOrder && Open(b.g.orders, KeyFor(t.fields))
    ensures
      var b', k := ProcessTransition(b, store, t), KeyFor(t.fields);
      && k in b'.g.orders
      && (b'.g.orders[k].remaining == b.g.orders[k].remaining <==> FillsNothing(Erase(b, k).views, store, t.fields))
      && (Open(b'.g.orders, k) <==> b'.g.orders[k].remaining > 0)
  {
    hide ProcessTransition, SubmitAccepted, Erase, Frames, FillsNothing, Ready, Unmapped, GoodStore;
    TransitionSubmits(b, store, t);
    SubmitFrames(Erase(b, KeyFor(t.fields)), store, t.fields);
  }

  /** A closed order has no further request accepted. */
  lemma {:induction false} ClosedStaysClosed(orders: Orders, items: seq<Item>, k: Key, n: nat)
    requires k in orders && Terminal(orders[k].status)
    ensures !GrantFor(TransitionsRun(orders, items), n, k)
    decreases |items|
  {
    if items != [] {
      var orders' := OrdersAfter(orders, items[0].e, items[0].req);
      var rest := TransitionsRun(orders', items[1..]);
      if n > 0 {
        ClosedStaysClosed(orders', items[1..], k, n - 1);
        assert n < |TransitionsRun(orders, items)| ==> TransitionsRun(orders, items)[n] == rest[n - 1];
      }
    }
  }

  lemma {:induction false} FirstIsNoCancel(orders: Orders, items: seq<Item>, i: nat, n: nat)
    requires |TransitionsRun(orders, items)| == |items| && i < n < |items|
    requires
      var ts := TransitionsRun(orders, items);
      ts[n].Granted? && GrantFor(ts, i, KeyFor(ts[n].fields))
    ensures TransitionsRun(orders, items)[i].kind != CancelOrder
    decreases |items|
  {
    var ts := TransitionsRun(orders, items);
    var orders' := OrdersAfter(orders, items[0].e, items[0].req);
    var rest := TransitionsRun(orders', items[1..]);
    TransitionsLength(orders', items[1..]);
    assert ts == [ts[0]] + rest;
    assert ts[n] == rest[n - 1];
    if i == 0 {
      if ts[0].kind == CancelOrder {
        ClosedStaysClosed(orders', items[1..], KeyFor(ts[n].fields), n - 1);
      }
    } else {
      assert ts[i] == rest[i - 1];
      FirstIsNoCancel(orders', items[1..], i - 1, n - 1);
    }
  }

  // ---- what filling all and filling nothing mean for a caller ----

  /** What the engine sees on the other side of the book. */
  ghost function VisibleTo(views: Views, store: Store, f: Fields): Levels
    requires GoodStore(store) && f.engineId in views
  {
    var r := RequestFor(f);
    Visible(HistFor(store, r), ConsumedAt(views[f.engineId], f.instrumentId, Opposite(f.side)))
  }

  /** Terms fill at once if and only if the simulator takes them and the volume visible within the limit covers
      the size; they fill nothing if and only if it does not take them or no visible level is within it. */
  lemma FillsMean(views: Views, store: Store, f: Fields)
    requires GoodStore(store)
    ensures FillsAll(views, store, f) <==>
      Admitted(views, RequestFor(f)) && f.size <= CrossingVolume(VisibleTo(views, store, f), f.side, f.price)
    ensures FillsNothing(views, store, f) <==>
      Admitted(views, RequestFor(f)) ==>
        forall p :: p in VisibleTo(views, store, f) ==> !Crosses(f.side, f.price, p)
  {
    var r := RequestFor(f);
    if Admitted(views, r) {
      var v, hist, visible := views[f.engineId], HistFor(store, r), VisibleTo(views, store, f);
      WalkTakes(visible, Reach(v, hist, r), f.side, f.price, f.size);
      SimPositive(v, hist, r);
      SumPositive(SimFills(v, hist, r));
      NothingInReach(visible, f.side, f.price);
      hide HistFor, Visible, Walk, PositiveSizes, InReach;
    }
  }

  lemma NothingInReach(visible: Levels, side: Side, limit: int)
    requires Positive(visible)
    ensures InReach(visible, side, limit) == map[] <==> forall p :: p in visible ==> !Crosses(side, limit, p)
  {
    forall p | p in visible && Crosses(side, limit, p)
      ensures p in InReach(visible, side, limit)
    {
    }
  }

  // ---- orderly runs ----

  /** At most one request per order was accepted. */
  ghost predicate OneGrant(ts: seq<Transition>) {
    forall i, j :: 0 <= i < j < |ts| && ts[i].Granted? && ts[j].Granted? ==>
      KeyFor(ts[i].fields) != KeyFor(ts[j].fields)
  }

  /** Which order a request is about. */
  function ItemKey(item: Item): Key {
    KeyOf(item.e, item.req)
  }

  lemma {:induction false} TransitionKeys(orders: Orders, items: seq<Item>, j: nat)
    requires j < |items|
    ensures |TransitionsRun(orders, items)| == |items|
    ensures KeyFor(TransitionsRun(orders, items)[j].fields) == ItemKey(items[j])
    decreases |items|
  {
    if |items| > 1 {
      TransitionKeys(OrdersAfter(orders, items[0].e, items[0].req), items[1..], if j == 0 then 0 else j - 1);
    }
    hide OrdersAfter;
  }

  /** One request per order is certainly one accepted request per order. */
  lemma DistinctRequestsGrantOnce(orders: Orders, items: seq<Item>)
    requires forall i, j :: 0 <= i < j < |items| ==> ItemKey(items[i]) != ItemKey(items[j])
    ensures OneGrant(TransitionsRun(orders, items))
  {
    var ts := TransitionsRun(orders, items);
    if items != [] {
      TransitionKeys(orders, items, 0);
    }
    forall i, j | 0 <= i < j < |ts|
      ensures KeyFor(ts[i].fields) != KeyFor(ts[j].fields)
    {
      TransitionKeys(orders, items, i);
      TransitionKeys(orders, items, j);
    }
  }

  /** One accepted request per order, and modifies name the order's own instrument. */
  ghost predicate OrderlyDrain(g: Gateway, order: seq<nat>)
    requires GoodSessions(g)
  {
    var ts := DrainAll(g, order).transitions;
    OneGrant(ts) && forall j :: 0 <= j < |ts| ==> OwnInstrument(ts[j])
  }

  lemma OneGrantIsOnly(ts: seq<Transition>, n: nat)
    requires OneGrant(ts) && n < |ts| && ts[n].Granted?
    ensures OnlyGrant(ts, n)
  {
  }

  /** An orderly drain links every order when every session has a view. */
  lemma OrderlyDrainLinks(s: System, order: seq<nat>)
    requires SystemInv(s) && Distinct(order) && Everyone(s.b) && OrderlyDrain(s.b.g, order)
    ensures LinkingDrain(s, order)
  {
    var ts := DrainAll(s.b.g, order).transitions;
    forall n | LastGrant(ts, n)
      ensures LinksInTurn(s, order, n)
    {
      OneGrantIsOnly(ts, n);
      MidDrainFacts(s, order, n, n);
      OrderlyGrant(s, order, n);
      SoleRequestLinksIff(s, order, n);
      AnyDrainLinksIff(s, order, n);
    }
    hide SystemInv, DrainAll, Linked, LinksInTurn;
  }

  lemma OrderlyGrant(s: System, order: seq<nat>, n: nat)
    requires SystemInv(s) && Distinct(order) && Everyone(s.b) && OrderlyDrain(s.b.g, order)
    requires LastGrant(DrainAll(s.b.g, order).transitions, n)
    ensures
      var t := DrainAll(s.b.g, order).transitions[n];
      t.kind == CancelOrder || (t.fields.engineId in s.b.views && t.fields.instrumentId == t.snapshot.instrumentId)
  {
    DrainPrepares(s, order);
    var d := DrainAll(s.b.g, order);
    var t := d.transitions[n];
    assert GrantShape(t) && OwnInstrument(t) && KeyFor(t.fields) in d.g.orders;
    OrdersGood(d.g, KeyFor(t.fields));
    hide Prepared, DrainAll, SystemInv, GoodOrder, GatewayInv;
  }

  /** Clients neither answer requests nor emit fills, and every drain is orderly when its turn comes. */
  ghost predicate Orderly(start: System, steps: seq<SystemStep>, order: seq<nat>)
    requires SystemOpening(start)
  {
    && (forall n :: 0 <= n < |steps| && steps[n].Client? ==> !steps[n].step.ServeNext? && !steps[n].step.EmitFill?)
    && (forall n :: 0 <= n < |steps| && steps[n] == DrainNow ==>
          OrderlyDrain(SystemRun(start, steps[..n], order).b.g, order))
  }

  lemma NextKeepsEngines(s: System, step: SystemStep, order: seq<nat>)
    requires SystemInv(s) && Distinct(order)
    ensures
      var s' := SystemNext(s, step, order);
      s'.b.views.Keys == s.b.views.Keys && s'.b.g.sessions.Keys == s.b.g.sessions.Keys
  {
    match step
    case Client(c) => AdvanceKeepsKeys(s.b.g, c);
    case Market(_) =>
    case DrainNow =>
      var d := DrainAll(s.b.g, order);
      var ts := d.transitions;
      DrainPrepares(s, order);
      assert ts[..|ts|] == ts;
      hide Prepared, DrainAll, ProcessAll;
      EveryPrefixExecuted(s.b.(g := d.g), s.store, ts, |ts|);
  }

  lemma {:induction false} OrderlyUpTo(start: System, steps: seq<SystemStep>, order: seq<nat>, n: nat)
    requires SystemOpening(start) && Everyone(start.b) && Distinct(order)
    requires Orderly(start, steps, order) && n <= |steps|
    ensures LinkedAfter(start, steps[..n], order) && Everyone(SystemRun(start, steps[..n], order).b)
  {
    if n == 0 {
      assert steps[..0] == [];
      OpeningLinked(start);
      hide AllLinked;
    } else {
      OrderlyUpTo(start, steps, order, n - 1);
      var s, step := SystemRun(start, steps[..n - 1], order), steps[n - 1];
      assert steps[..n][..n - 1] == steps[..n - 1];
      if step == DrainNow {
        OrderlyDrainLinks(s, order);
      }
      LinkedOneMore(start, steps, order, n - 1);
      NextKeepsEngines(s, step, order);
      hide AllLinked, Running, LinkingDrain, Distinct, SystemNext;
    }
  }

  /** When every session has a view and the run is orderly, every order is linked throughout. */
  lemma EveryRunLinked(start: System, steps: seq<SystemStep>, order: seq<nat>)
    requires SystemOpening(start) && Everyone(start.b) && Distinct(order) && Orderly(start, steps, order)
    ensures AllLinked(SystemRun(start, steps, order).b)
  {
    OrderlyUpTo(start, steps, order, |steps|);
    assert steps[..|steps|] == steps;
  }
}
