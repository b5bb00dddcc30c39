/** The bridge between gateway and simulator: it drains all requests first and only then executes what
    was accepted, keeping for every open gateway order the id of its synthetic order. */
module Bridges {
  import opened Domain
  import opened Ladders
  import opened EngineViews
  import opened HistoricalLobStores
  import opened FillSimulators
  import opened FillSimulation
  import opened Gateways

  datatype Mapping = Mapping(
    syntheticId: nat, instrumentId: nat, side: Side, price: int, remaining: nat, timestamp: int)

  type Mappings = map<Key, Mapping>

  datatype Bridge = Bridge(g: Gateway, views: Views, mappings: Mappings)

  function KeyFor(f: Fields): Key {
    Key(f.engineId, f.orderId)
  }

  function RequestFor(f: Fields): Request {
    Request(f.engineId, f.instrumentId, f.side, f.price, f.size, f.timestamp)
  }

  function CancelIn(views: Views, e: nat, id: nat): Views {
    if e in views then views[e := views[e].(own := views[e].own - {id})] else views
  }

  /** Drop the mapping of an order together with its synthetic order. */
  function Erase(b: Bridge, k: Key): Bridge {
    if k !in b.mappings then b
    else b.(views := CancelIn(b.views, k.engineId, b.mappings[k].syntheticId), mappings := b.mappings - {k})
  }

  /** Report simulated fills to the gateway, one by one. */
  function EmitAll(g: Gateway, k: Key, fills: seq<Level>, timestamp: int): Gateway {
    if fills == [] then g
    else
      var n := |fills| - 1;
      Emit(EmitAll(g, k, fills[..n], timestamp), k, fills[n].price, fills[n].size, timestamp)
  }

  function MappingFor(f: Fields, res: SimResult): Mapping {
    Mapping(res.syntheticId, f.instrumentId, f.side, f.price, res.remaining, f.timestamp)
  }

  function StoreOrErase(b: Bridge, f: Fields, res: SimResult): Bridge {
    if res.syntheticId == 0 || res.remaining == 0 then Erase(b, KeyFor(f))
    else b.(mappings := b.mappings[KeyFor(f) := MappingFor(f, res)])
  }

  ghost function SubmitAccepted(b: Bridge, store: Store, f: Fields): Bridge
    requires GoodStore(store)
  {
    var res := SubmitResult(b.views, store, RequestFor(f));
    var g := EmitAll(b.g, KeyFor(f), res.fills, f.timestamp);
    StoreOrErase(Bridge(g, SubmitViews(b.views, store, RequestFor(f)), b.mappings), f, res)
  }

  ghost function ProcessTransition(b: Bridge, store: Store, t: Transition): Bridge
    requires GoodStore(store)
  {
    if t.Refused? then b
    else
      match t.kind
      case NewOrder => SubmitAccepted(b, store, t.fields)
      case CancelOrder => Erase(b, KeyFor(t.fields))
      case ModifyOrder => SubmitAccepted(Erase(b, KeyFor(t.fields)), store, t.fields)
  }

  ghost function ProcessAll(b: Bridge, store: Store, ts: seq<Transition>): Bridge
    requires GoodStore(store)
  {
    if ts == [] then b
    else ProcessTransition(ProcessAll(b, store, ts[..|ts| - 1]), store, ts[|ts| - 1])
  }

  /** All requests first, then all transitions. */
  ghost function Drain(b: Bridge, store: Store, order: seq<nat>): Bridge
    requires GoodStore(store) && GoodSessions(b.g)
  {
    var d := DrainAll(b.g, order);
    ProcessAll(b.(g := d.g), store, d.transitions)
  }

  // ---- the link between gateway, mapping and view ----

  /** The own order stands for what remains of the gateway order. */
  predicate StandsFor(s: SynOrder, o: OrderSnapshot) {
    s.instrumentId == o.instrumentId && s.side == o.side && s.price == o.price && s.size == o.remaining
  }

  predicate Describes(m: Mapping, o: OrderSnapshot) {
    m.instrumentId == o.instrumentId && m.side == o.side && m.price == o.price && m.remaining == o.remaining
  }

  /** The own order a mapping names, if there is one. */
  function OwnOf(views: Views, e: nat, id: nat): Option<SynOrder> {
    if e in views && id in views[e].own then Some(views[e].own[id]) else None
  }

  /** A mapping exists exactly while the gateway order is open; it describes that order, and its synthetic
      id names a live own order that stands for it. */
  ghost predicate Linked(b: Bridge, k: Key) {
    && (k in b.mappings <==> Open(b.g.orders, k))
    && (k in b.mappings ==>
          && Describes(b.mappings[k], b.g.orders[k])
          && var own := OwnOf(b.views, k.engineId, b.mappings[k].syntheticId);
             own.Some? && StandsFor(own.value, b.g.orders[k]))
  }

  /** Synthetic ids were handed out by the view of the engine, and no two mappings share one. */
  ghost predicate GoodIds(b: Bridge) {
    && (forall e :: e in b.views ==> GoodView(b.views[e]))
    && (forall k :: k in b.mappings ==>
          k.engineId in b.views && b.mappings[k].syntheticId < b.views[k.engineId].nextId)
    && (forall j, k :: j in b.mappings && k in b.mappings && j != k && j.engineId == k.engineId ==>
          b.mappings[j].syntheticId != b.mappings[k].syntheticId)
  }

  /** Some gateway order is mapped to this synthetic order. */
  ghost predicate Mapped(b: Bridge, e: nat, id: nat) {
    exists k :: k in b.mappings && k.engineId == e && b.mappings[k].syntheticId == id
  }

  /** Every live own order belongs to a mapping. */
  ghost predicate NoOrphans(b: Bridge) {
    forall e, id :: e in b.views && id in b.views[e].own ==> Mapped(b, e, id)
  }

  // ---- simulated fills reported to the gateway ----

  ghost predicate PositiveSizes(fills: seq<Level>) {
    forall i :: 0 <= i < |fills| ==> fills[i].size > 0
  }

  lemma {:induction false} SumPositive(fills: seq<Level>)
    requires PositiveSizes(fills)
    ensures fills != [] ==> Sum(fills) > 0
  {
    if |fills| > 1 {
      SumPositive(fills[1..]);
    }
  }

  predicate ReportsFill(ev: OrderEvent, k: Key, fill: Level) {
    && ev.Filling? && ev.fields.engineId == k.engineId && ev.fields.orderId == k.orderId
    && ev.fillPrice == fill.price && ev.fillSize == fill.size
  }

  /** The events added to a channel report the fills as they are. */
  ghost predicate Reports(log: seq<OrderEvent>, log': seq<OrderEvent>, k: Key, fills: seq<Level>) {
    && |log'| == |log| + |fills| && log <= log'
    && (forall i :: 0 <= i < |fills| ==> ReportsFill(log'[|log| + i], k, fills[i]))
  }

  function LeftAfter(remaining: nat, taken: nat): nat {
    if taken <= remaining then remaining - taken else 0
  }

  ghost predicate Reported(g: Gateway, g': Gateway, k: Key, fills: seq<Level>)
    requires k.engineId in g.sessions && k in g.orders
  {
    && g'.sessions.Keys == g.sessions.Keys
    && (forall j :: j != k ==> Lookup(g'.orders, j) == Lookup(g.orders, j))
    && k in g'.orders
    && var o, o' := g.orders[k], g'.orders[k];
       && o'.remaining == LeftAfter(o.remaining, Sum(fills))
       && o'.instrumentId == o.instrumentId && o'.side == o.side && o'.price == o.price
       && (Terminal(o'.status) <==> o'.remaining == 0)
       && (Sum(fills) <= o.remaining ==>
             Reports(g.sessions[k.engineId].events.pushed, g'.sessions[k.engineId].events.pushed, k, fills))
  }

  lemma ReportsOneMore(
    log: seq<OrderEvent>, log': seq<OrderEvent>, k: Key, fills: seq<Level>, last: Level, ev: OrderEvent)
    requires Reports(log, log', k, fills)
    requires ReportsFill(ev, k, last)
    ensures Reports(log, log' + [ev], k, fills + [last])
  {
    var all, longer := fills + [last], log' + [ev];
    forall i | 0 <= i < |all|
      ensures ReportsFill(longer[|log| + i], k, all[i])
    {
      if i < |fills| {
        assert all[i] == fills[i] && longer[|log| + i] == log'[|log| + i];
      }
    }
  }

  lemma EmitReports(g: Gateway, g': Gateway, k: Key, fills: seq<Level>, last: Level, timestamp: int)
    requires k.engineId in g.sessions && k in g.orders && Reported(g, g', k, fills) && 0 < last.size
    ensures Reported(g, Emit(g', k, last.price, last.size, timestamp), k, fills + [last])
  {
    SumAppend(fills, last);
    var total := Sum(fills + [last]);
    var log, log' := g.sessions[k.engineId].events.pushed, g'.sessions[k.engineId].events.pushed;
    var g'' := Emit(g', k, last.price, last.size, timestamp);
    if CanFill(g', k, last.size) {
      var o := g'.orders[k];
      var ev := FillEvent(k, o, last.price, last.size, timestamp);
      assert g''.orders == g'.orders[k := FillOrder(o, last.size, timestamp)];
      assert g''.sessions[k.engineId].events.pushed == log' + [ev];
      if total <= g.orders[k].remaining {
        ReportsOneMore(log, log', k, fills, last, ev);
      }
    } else {
      assert g'' == g' && g'.orders[k].remaining == 0;
      assert total > g.orders[k].remaining;
    }
    hide Sum, Reports;
  }

  /** Fills reach the order until nothing remains of it. While they fit, none is clamped or dropped: each is
      reported as it is, and the order keeps the difference. */
  lemma {:induction false} EmitAllReports(g: Gateway, k: Key, fills: seq<Level>, timestamp: int)
    requires k.engineId in g.sessions && Open(g.orders, k) && g.orders[k].remaining > 0 && PositiveSizes(fills)
    ensures Reported(g, EmitAll(g, k, fills, timestamp), k, fills)
  {
    if fills != [] {
      var n := |fills| - 1;
      assert fills[..n] + [fills[n]] == fills;
      hide Reported, Emit, Sum;
      EmitAllReports(g, k, fills[..n], timestamp);
      EmitReports(g, EmitAll(g, k, fills[..n], timestamp), k, fills[..n], fills[n], timestamp);
    }
  }

  /** Whatever the fills, the events they add to the channel all carry the time they were executed at. */
  lemma {:induction false} FillsAreStamped(g: Gateway, k: Key, fills: seq<Level>, timestamp: int)
    requires k.engineId in g.sessions
    ensures k.engineId in EmitAll(g, k, fills, timestamp).sessions
    ensures
      var log, log' := g.sessions[k.engineId].events.pushed,
                       EmitAll(g, k, fills, timestamp).sessions[k.engineId].events.pushed;
      log <= log' && forall p :: |log| <= p < |log'| ==> log'[p].Filling? && log'[p].fields.timestamp == timestamp
  {
    if fills != [] {
      FillsAreStamped(g, k, fills[..|fills| - 1], timestamp);
    }
  }

  // ---- what a transition leaves alone ----

  ghost predicate Sound(b: Bridge) {
    GoodIds(b) && NoOrphans(b)
  }

  /** Everything about order j is as it was. */
  ghost predicate Same(b: Bridge, b': Bridge, j: Key) {
    && Lookup(b'.g.orders, j) == Lookup(b.g.orders, j)
    && (j in b'.mappings <==> j in b.mappings)
    && (j in b.mappings ==>
          && b'.mappings[j] == b.mappings[j]
          && var m := b.mappings[j];
             OwnOf(b'.views, j.engineId, m.syntheticId) == OwnOf(b.views, j.engineId, m.syntheticId))
  }

  lemma SameLinked(b: Bridge, b': Bridge, j: Key)
    requires Same(b, b', j)
    ensures Linked(b, j) <==> Linked(b', j)
  {
  }

  /** Only order k changed, and the bridge is sound again. */
  ghost predicate Frames(b: Bridge, b': Bridge, k: Key) {
    && Sound(b')
    && b'.g.sessions.Keys == b.g.sessions.Keys && b'.views.Keys == b.views.Keys
    && (forall j :: j != k ==> Same(b, b', j))
  }

  lemma FramesTwice(a: Bridge, b: Bridge, c: Bridge, k: Key)
    requires Frames(a, b, k) && Frames(b, c, k)
    ensures Frames(a, c, k)
  {
    hide Sound;
    forall j | j != k
      ensures Same(a, c, j)
    {
      assert Same(a, b, j) && Same(b, c, j);
    }
  }

  lemma EraseOrphans(b: Bridge, k: Key)
    requires NoOrphans(b)
    ensures NoOrphans(Erase(b, k))
  {
    var b' := Erase(b, k);
    forall e, id | e in b'.views && id in b'.views[e].own
      ensures Mapped(b', e, id)
    {
      assert Mapped(b, e, id);
      var j :| j in b.mappings && j.engineId == e && b.mappings[j].syntheticId == id;
      assert j in b'.mappings;
    }
  }

  lemma EraseIds(b: Bridge, k: Key)
    requires GoodIds(b)
    ensures GoodIds(Erase(b, k))
  {
    if k in b.mappings {
      var b' := Erase(b, k);
      assert forall e :: e in b.views ==> e in b'.views && b'.views[e].nextId == b.views[e].nextId;
      forall e | e in b'.views
        ensures GoodView(b'.views[e])
      {
        assert GoodView(b.views[e]);
      }
      hide CancelIn, GoodView;
    }
  }

  lemma EraseSame(b: Bridge, k: Key, j: Key)
    requires GoodIds(b) && j != k
    ensures Same(b, Erase(b, k), j)
  {
    hide GoodView;
  }

  lemma EraseFrames(b: Bridge, k: Key)
    requires Sound(b)
    ensures Frames(b, Erase(b, k), k) && k !in Erase(b, k).mappings && Erase(b, k).g == b.g
  {
    EraseOrphans(b, k);
    EraseIds(b, k);
    forall j | j != k
      ensures Same(b, Erase(b, k), j)
    {
      EraseSame(b, k, j);
    }
    hide Same, NoOrphans, GoodIds;
  }

  /** What the simulator does to the view of the engine. */
  ghost predicate Submitted(v: View, v': View, r: Request, res: SimResult) {
    && res.syntheticId == v.nextId && v'.nextId == v.nextId + 1
    && v'.own == (if res.remaining == 0 then v.own
                  else v.own[v.nextId := SynOrder(r.instrumentId, r.side, r.limitPrice, res.remaining, r.timestamp)])
    && PositiveSizes(res.fills) && Sum(res.fills) + res.remaining == r.size
  }

  lemma {:induction false} ConsumeKeepsOwn(v: View, i: nat, side: Side, fills: seq<Level>)
    ensures
      var v' := ConsumeFills(v, i, side, fills);
      v'.own == v.own && v'.nextId == v.nextId
  {
    if fills != [] {
      ConsumeKeepsOwn(v, i, side, fills[..|fills| - 1]);
    }
  }

  lemma SimPositive(v: View, hist: Levels, r: Request)
    ensures PositiveSizes(SimFills(v, hist, r)) && Sum(SimFills(v, hist, r)) <= r.size
  {
    SimBounded(v, hist, r);
    hide SimFills, Reach, Sum;
  }

  lemma SimSubmits(v: View, hist: Levels, r: Request)
    ensures Submitted(v, SimView(v, hist, r), r, SimResultOf(v, hist, r))
  {
    hide SimFills, ConsumeFills, Sum, IsWalk, Worsening, Reach, PositiveSizes;
    SimPositive(v, hist, r);
    ConsumeKeepsOwn(v.(nextId := v.nextId + 1), r.instrumentId, Opposite(r.side), SimFills(v, hist, r));
  }

  /** Put the outcome of a submission in place. */
  function Settle(b: Bridge, g: Gateway, v: View, f: Fields, res: SimResult): Bridge {
    StoreOrErase(Bridge(g, b.views[f.engineId := v], b.mappings), f, res)
  }

  /** What is left of executed terms rests as an own order with exactly those terms, and the mapping says so. */
  lemma RemainderIsFiled(b: Bridge, store: Store, f: Fields)
    requires GoodStore(store) && GoodIds(b) && SubmitResult(b.views, store, RequestFor(f)).remaining > 0
    ensures
      var b', k := SubmitAccepted(b, store, f), Key(f.engineId, f.orderId);
      var left := SubmitResult(b.views, store, RequestFor(f)).remaining;
      && k in b'.mappings
      && var id := b'.mappings[k].syntheticId;
      && b'.mappings[k] == Mapping(id, f.instrumentId, f.side, f.price, left, f.timestamp)
      && OwnOf(b'.views, f.engineId, id)
         == Some(SynOrder(f.instrumentId, f.side, f.price, left, f.timestamp))
      && OwnOf(b.views, f.engineId, id) == None
  {
    var r := RequestFor(f);
    assert GoodView(b.views[f.engineId]);
    hide SimResultOf, SimView, EmitAll, HistFor, Sum;
    SimSubmits(b.views[f.engineId], HistFor(store, r), r);
  }

  lemma AddMapping(b: Bridge, k: Key, m: Mapping)
    requires GoodIds(b) && k.engineId in b.views && m.syntheticId < b.views[k.engineId].nextId
    requires forall j :: j in b.mappings && j.engineId == k.engineId ==> b.mappings[j].syntheticId < m.syntheticId
    ensures GoodIds(b.(mappings := b.mappings[k := m]))
  {
    hide GoodView;
  }

  lemma SettleIds(b: Bridge, g: Gateway, v: View, f: Fields, res: SimResult)
    requires GoodIds(b) && KeyFor(f) !in b.mappings && f.engineId in b.views
    requires ValidRequest(RequestFor(f)) && Submitted(b.views[f.engineId], v, RequestFor(f), res)
    ensures GoodIds(Settle(b, g, v, f, res))
  {
    var e, k := f.engineId, KeyFor(f);
    assert GoodView(b.views[e]);
    assert GoodView(v) && res.syntheticId == b.views[e].nextId < v.nextId;
    hide Submitted, ValidRequest, GoodView;
    var moved := Bridge(g, b.views[e := v], b.mappings);
    assert GoodIds(moved);
    if res.syntheticId != 0 && res.remaining != 0 {
      AddMapping(moved, k, MappingFor(f, res));
    }
    hide GoodIds;
  }

  lemma SettleOrphans(b: Bridge, g: Gateway, v: View, f: Fields, res: SimResult)
    requires NoOrphans(b) && GoodIds(b) && KeyFor(f) !in b.mappings && f.engineId in b.views
    requires Submitted(b.views[f.engineId], v, RequestFor(f), res)
    ensures NoOrphans(Settle(b, g, v, f, res))
  {
    var b', k := Settle(b, g, v, f, res), KeyFor(f);
    assert GoodView(b.views[f.engineId]);
    forall e, id | e in b'.views && id in b'.views[e].own
      ensures Mapped(b', e, id)
    {
      if e == f.engineId && id == res.syntheticId {
        assert k in b'.mappings && b'.mappings[k].syntheticId == id;
      } else {
        assert Mapped(b, e, id);
        var j :| j in b.mappings && j.engineId == e && b.mappings[j].syntheticId == id;
        assert j in b'.mappings && b'.mappings[j] == b.mappings[j];
      }
    }
  }

  /** The gateways differ at most at order k. */
  ghost predicate Elsewhere(g: Gateway, g': Gateway, k: Key) {
    && g'.sessions.Keys == g.sessions.Keys
    && (forall j :: j != k ==> Lookup(g'.orders, j) == Lookup(g.orders, j))
  }

  lemma SettleSame(b: Bridge, g: Gateway, v: View, f: Fields, res: SimResult, j: Key)
    requires GoodIds(b) && j != KeyFor(f) && f.engineId in b.views && KeyFor(f) !in b.mappings
    requires Submitted(b.views[f.engineId], v, RequestFor(f), res) && Elsewhere(b.g, g, KeyFor(f))
    ensures Same(b, Settle(b, g, v, f, res), j)
  {
    hide PositiveSizes, Sum, GoodView;
  }

  lemma SettleFrames(b: Bridge, g: Gateway, v: View, f: Fields, res: SimResult)
    requires Sound(b) && KeyFor(f) !in b.mappings && f.engineId in b.views
    requires ValidRequest(RequestFor(f)) && Submitted(b.views[f.engineId], v, RequestFor(f), res)
    requires Elsewhere(b.g, g, KeyFor(f))
    ensures Frames(b, Settle(b, g, v, f, res), KeyFor(f))
  {
    var b' := Settle(b, g, v, f, res);
    SettleIds(b, g, v, f, res);
    SettleOrphans(b, g, v, f, res);
    forall j | j != KeyFor(f)
      ensures Same(b, b', j)
    {
      SettleSame(b, g, v, f, res, j);
    }
    assert b'.g == g && b'.views.Keys == b.views.Keys;
    hide Same, NoOrphans, GoodIds, Submitted, ValidRequest, Settle;
  }

  /** After a submission for an open order that has no mapping: the order is linked exactly when the
      submission went through, and either filled everything or the gateway order still has all of the
      submitted size and names the submitted instrument. */
  lemma SettleLinks(b: Bridge, g: Gateway, v: View, f: Fields, res: SimResult)
    requires KeyFor(f) !in b.mappings && f.engineId in b.views && f.engineId in b.g.sessions
    requires ValidRequest(RequestFor(f)) && Submitted(b.views[f.engineId], v, RequestFor(f), res)
    requires GoodView(b.views[f.engineId])
    requires Open(b.g.orders, KeyFor(f)) && 0 < b.g.orders[KeyFor(f)].remaining <= f.size
    requires b.g.orders[KeyFor(f)].side == f.side && b.g.orders[KeyFor(f)].price == f.price
    requires Reported(b.g, g, KeyFor(f), res.fills)
    ensures
      var o := b.g.orders[KeyFor(f)];
      Linked(Settle(b, g, v, f, res), KeyFor(f)) <==>
        res.remaining == 0 || (o.remaining == f.size && o.instrumentId == f.instrumentId)
  {
    hide PositiveSizes, Sum, Reports;
  }

  /** Fills for an order that is no longer open are dropped. */
  lemma {:induction false} ClosedDropsFills(g: Gateway, k: Key, fills: seq<Level>, timestamp: int)
    requires !Open(g.orders, k)
    ensures EmitAll(g, k, fills, timestamp) == g
  {
    if fills != [] {
      ClosedDropsFills(g, k, fills[..|fills| - 1], timestamp);
    }
  }

  /** An accepted submission: the view moves on as the simulator says, the gateway hears of the fills as long as
      the order is open, and the outcome is put in place. */
  lemma SubmitSettles(b: Bridge, store: Store, f: Fields)
    requires GoodStore(store) && Admitted(b.views, RequestFor(f)) && f.engineId in b.g.sessions
    requires Open(b.g.orders, KeyFor(f)) ==> b.g.orders[KeyFor(f)].remaining > 0
    ensures
      var res := SubmitResult(b.views, store, RequestFor(f));
      var v := SubmitViews(b.views, store, RequestFor(f))[f.engineId];
      var g := EmitAll(b.g, KeyFor(f), res.fills, f.timestamp);
      && Submitted(b.views[f.engineId], v, RequestFor(f), res)
      && (if Open(b.g.orders, KeyFor(f)) then Reported(b.g, g, KeyFor(f), res.fills) else g == b.g)
      && SubmitAccepted(b, store, f) == Settle(b, g, v, f, res)
  {
    var r := RequestFor(f);
    var fills := SubmitResult(b.views, store, r).fills;
    SimSubmits(b.views[f.engineId], HistFor(store, r), r);
    if Open(b.g.orders, KeyFor(f)) {
      EmitAllReports(b.g, KeyFor(f), fills, f.timestamp);
    } else {
      ClosedDropsFills(b.g, KeyFor(f), fills, f.timestamp);
    }
    hide SimResultOf, SimView, HistFor, EmitAll, Reported, StoreOrErase, ValidRequest;
  }

  /** A request the simulator does not take leaves an unmapped order alone. */
  lemma NotAdmittedSettles(b: Bridge, store: Store, f: Fields)
    requires GoodStore(store) && !Admitted(b.views, RequestFor(f)) && KeyFor(f) !in b.mappings
    ensures SubmitAccepted(b, store, f) == b && FillsNothing(b.views, store, f) && !FillsAll(b.views, store, f)
  {
    hide SimResultOf, SimView, HistFor;
    assert SubmitResult(b.views, store, RequestFor(f)).fills == [];
  }

  // ---- executing accepted terms ----

  /** Whether the simulator takes the order and fills all of it. */
  ghost predicate FillsAll(views: Views, store: Store, f: Fields)
    requires GoodStore(store)
  {
    Admitted(views, RequestFor(f)) && SubmitResult(views, store, RequestFor(f)).remaining == 0
  }

  ghost predicate FillsNothing(views: Views, store: Store, f: Fields)
    requires GoodStore(store)
  {
    SubmitResult(views, store, RequestFor(f)).fills == []
  }

  /** What executions do to a gateway order: they only take from what remains, and leave a closed one alone. */
  predicate Wears(o: OrderSnapshot, o': OrderSnapshot) {
    && o'.instrumentId == o.instrumentId && o'.side == o.side && o'.price == o.price
    && o'.remaining <= o.remaining
    && (Terminal(o.status) ==> o' == o)
  }

  /** An order of this session that has no mapping. */
  ghost predicate Unmapped(b: Bridge, k: Key) {
    && Sound(b) && k !in b.mappings && k.engineId in b.g.sessions
    && k in b.g.orders && GoodOrder(b.g.orders[k])
  }

  /** Executing terms, current or outdated, touches no other order; it wears its own unless it fills nothing. */
  lemma SubmitFrames(b: Bridge, store: Store, f: Fields)
    requires GoodStore(store) && Unmapped(b, KeyFor(f))
    ensures
      var b', k := SubmitAccepted(b, store, f), KeyFor(f);
      && Frames(b, b', k) && k in b'.g.orders && Wears(b.g.orders[k], b'.g.orders[k])
      && (Open(b.g.orders, k) ==>
            && (b'.g.orders[k].remaining == b.g.orders[k].remaining <==> FillsNothing(b.views, store, f))
            && (Open(b'.g.orders, k) <==> b'.g.orders[k].remaining > 0))
  {
    var r, k := RequestFor(f), KeyFor(f);
    assert forall j :: Same(b, b, j);
    hide Sound, Same, SubmitAccepted, SubmitResult, SubmitViews, Settle, EmitAll, FillsNothing, Submitted;
    if Admitted(b.views, r) {
      AdmittedFrames(b, store, f);
    } else {
      NotAdmittedSettles(b, store, f);
    }
  }

  lemma AdmittedFrames(b: Bridge, store: Store, f: Fields)
    requires GoodStore(store) && Unmapped(b, KeyFor(f)) && Admitted(b.views, RequestFor(f))
    ensures
      var b', k := SubmitAccepted(b, store, f), KeyFor(f);
      && Frames(b, b', k) && k in b'.g.orders && Wears(b.g.orders[k], b'.g.orders[k])
      && (Open(b.g.orders, k) ==>
            && (b'.g.orders[k].remaining == b.g.orders[k].remaining <==> FillsNothing(b.views, store, f))
            && (Open(b'.g.orders, k) <==> b'.g.orders[k].remaining > 0))
  {
    var r, k := RequestFor(f), KeyFor(f);
    var res := SubmitResult(b.views, store, r);
    var v := SubmitViews(b.views, store, r)[f.engineId];
    var g := EmitAll(b.g, k, res.fills, f.timestamp);
    assert Settle(b, g, v, f, res).g == g;
    hide Sound, Frames, SubmitAccepted, SubmitResult, SubmitViews, Settle, EmitAll, Submitted, Reported, ValidRequest,
      GoodOrder, Elsewhere, Wears;
    OpenHasRest(b, k);
    SubmitSettles(b, store, f);
    FillsWear(b.g, g, k, b.views[f.engineId], v, r, res);
    SettleFrames(b, g, v, f, res);
  }

  lemma OpenHasRest(b: Bridge, k: Key)
    requires Unmapped(b, k)
    ensures Open(b.g.orders, k) ==> b.g.orders[k].remaining > 0
  {
  }

  /** What reported fills do to the gateway: only the order changes, and only if there are fills. */
  lemma FillsWear(g: Gateway, g': Gateway, k: Key, v: View, v': View, r: Request, res: SimResult)
    requires k.engineId in g.sessions && k in g.orders && Submitted(v, v', r, res)
    requires Open(g.orders, k) ==> g.orders[k].remaining > 0
    requires if Open(g.orders, k) then Reported(g, g', k, res.fills) else g' == g
    ensures Elsewhere(g, g', k) && k in g'.orders && Wears(g.orders[k], g'.orders[k])
    ensures Open(g.orders, k) ==>
      && (g'.orders[k].remaining == g.orders[k].remaining <==> res.fills == [])
      && (Open(g'.orders, k) <==> g'.orders[k].remaining > 0)
  {
    SumPositive(res.fills);
    hide PositiveSizes, Reports;
  }

  /** The order was last accepted with the terms of f, the instrument apart, and may have been worn since. */
  predicate Termed(o: OrderSnapshot, f: Fields) {
    && 0 < f.size && o.remaining <= f.size && o.side == f.side && o.price == f.price
    && ActiveSide(f.side) && f.price != UNDEFINED_PRICE
  }

  /** Executing terms links an unmapped order if and only if they fill at once; or it is open, the simulator
      takes them, and it still has all of its size and is of the instrument they name; or it is closed and
      the simulator does not take them. */
  ghost predicate LinksWhen(b: Bridge, store: Store, f: Fields)
    requires GoodStore(store) && KeyFor(f) in b.g.orders
  {
    var o := b.g.orders[KeyFor(f)];
    || FillsAll(b.views, store, f)
    || (if Open(b.g.orders, KeyFor(f))
        then Admitted(b.views, RequestFor(f)) && f.instrumentId == o.instrumentId && o.remaining == f.size
        else !Admitted(b.views, RequestFor(f)))
  }

  lemma ExecutionLinksIff(b: Bridge, store: Store, f: Fields)
    requires GoodStore(store) && Unmapped(b, KeyFor(f)) && Termed(b.g.orders[KeyFor(f)], f)
    ensures Linked(SubmitAccepted(b, store, f), KeyFor(f)) <==> LinksWhen(b, store, f)
  {
    var r, k := RequestFor(f), KeyFor(f);
    if !Admitted(b.views, r) {
      NotAdmittedSettles(b, store, f);
      hide Sound, SubmitAccepted, FillsAll, FillsNothing;
    } else {
      assert GoodView(b.views[f.engineId]);
      var res := SubmitResult(b.views, store, r);
      var v := SubmitViews(b.views, store, r)[f.engineId];
      SubmitSettles(b, store, f);
      if Open(b.g.orders, k) {
        SettleLinks(b, EmitAll(b.g, k, res.fills, f.timestamp), v, f, res);
      } else {
        ClosedLinks(b, v, f, res);
      }
      hide Linked, Sound, SubmitAccepted, SubmitResult, SubmitViews, Settle, Submitted, Reported, EmitAll;
    }
  }

  lemma ClosedLinks(b: Bridge, v: View, f: Fields, res: SimResult)
    requires KeyFor(f) !in b.mappings && f.engineId in b.views && GoodView(b.views[f.engineId])
    requires Submitted(b.views[f.engineId], v, RequestFor(f), res) && !Open(b.g.orders, KeyFor(f))
    ensures Linked(Settle(b, b.g, v, f, res), KeyFor(f)) <==> res.remaining == 0
  {
    hide PositiveSizes, Sum;
  }

  // ---- one transition ----

  /** What an accepted request leaves in the gateway. */
  ghost predicate GrantShape(t: Transition) {
    t.Granted? &&
    var o, f := t.snapshot, t.fields;
    if t.kind == CancelOrder then o.status == Cancelled
    else
      && o.status == Gateways.Accepted && o.remaining == f.size > 0 && o.side == f.side && o.price == f.price
      && ActiveSide(f.side) && f.price != UNDEFINED_PRICE
      && (t.kind == NewOrder ==> o.instrumentId == f.instrumentId != 0)
  }

  /** What every accepted request finds when its turn comes. */
  ghost predicate Ready(b: Bridge, t: Transition) {
    var k := KeyFor(t.fields);
    && t.Granted? && Sound(b) && k.engineId in b.g.sessions && k in b.g.orders && GoodOrder(b.g.orders[k])
    && (t.kind == NewOrder ==> k !in b.mappings)
  }

  /** Whether executing the last accepted request of an order links it: a cancel always does, other terms
      under the condition above, once the order's old mapping is gone. */
  ghost predicate LinksAt(b: Bridge, store: Store, t: Transition)
    requires GoodStore(store) && KeyFor(t.fields) in b.g.orders
  {
    t.kind == CancelOrder || LinksWhen(Erase(b, KeyFor(t.fields)), store, t.fields)
  }

  lemma EraseUnmapped(b: Bridge, k: Key)
    requires k !in b.mappings
    ensures Erase(b, k) == b
  {
  }

  lemma TransitionSubmits(b: Bridge, store: Store, t: Transition)
    requires GoodStore(store) && Ready(b, t) && t.kind != CancelOrder
    ensures ProcessTransition(b, store, t) == SubmitAccepted(Erase(b, KeyFor(t.fields)), store, t.fields)
    ensures Frames(b, Erase(b, KeyFor(t.fields)), KeyFor(t.fields))
    ensures Unmapped(Erase(b, KeyFor(t.fields)), KeyFor(t.fields))
    ensures Erase(b, KeyFor(t.fields)).g == b.g
  {
    var k := KeyFor(t.fields);
    EraseFrames(b, k);
    if t.kind == NewOrder {
      EraseUnmapped(b, k);
    }
    hide Same, Sound, SubmitAccepted, Erase, GoodOrder;
  }

  /** Executing any accepted request touches no other order and at most wears its own. */
  lemma TransitionFrames(b: Bridge, store: Store, t: Transition)
    requires GoodStore(store) && Ready(b, t)
    ensures
      var b', k := ProcessTransition(b, store, t), KeyFor(t.fields);
      Frames(b, b', k) && k in b'.g.orders && Wears(b.g.orders[k], b'.g.orders[k])
  {
    var k := KeyFor(t.fields);
    if t.kind == CancelOrder {
      EraseFrames(b, k);
      hide Frames, Erase;
    } else {
      TransitionSubmits(b, store, t);
      hide Frames, Erase, SubmitAccepted, ProcessTransition, FillsNothing;
      SubmitFrames(Erase(b, k), store, t.fields);
      FramesTwice(b, Erase(b, k), ProcessTransition(b, store, t), k);
    }
  }

  /** The order is linked afterwards exactly under the stated condition. */
  lemma TransitionLinksIff(b: Bridge, store: Store, t: Transition)
    requires GoodStore(store) && Ready(b, t) && GrantShape(t) && Wears(t.snapshot, b.g.orders[KeyFor(t.fields)])
    ensures Linked(ProcessTransition(b, store, t), KeyFor(t.fields)) <==> LinksAt(b, store, t)
  {
    var k := KeyFor(t.fields);
    if t.kind == CancelOrder {
      EraseFrames(b, k);
      hide Frames, Erase;
    } else {
      TransitionSubmits(b, store, t);
      hide Frames, Erase, SubmitAccepted, ProcessTransition, Linked, LinksWhen, GoodOrder;
      ExecutionLinksIff(Erase(b, k), store, t.fields);
    }
  }

  // ---- what the gateway itself keeps ----

  lemma {:induction false} EmitAllKeeps(g: Gateway, k: Key, fills: seq<Level>, timestamp: int)
    requires GatewayInv(g) && GoodSessions(g)
    ensures
      var g' := EmitAll(g, k, fills, timestamp);
      GatewayInv(g') && GoodSessions(g') && g'.sessions.Keys == g.sessions.Keys
  {
    if fills != [] {
      hide GatewayInv, GoodSessions;
      var n := |fills| - 1;
      EmitAllKeeps(g, k, fills[..n], timestamp);
      var before := EmitAll(g, k, fills[..n], timestamp);
      EmitKeeps(before, k, fills[n].price, fills[n].size, timestamp);
      EmitKeepsSessions(before, k, fills[n].price, fills[n].size, timestamp);
    }
  }

  ghost predicate GoodGateway(g: Gateway) {
    GoodSessions(g) && GatewayInv(g)
  }

  lemma OrdersGood(g: Gateway, k: Key)
    requires GatewayInv(g) && k in g.orders
    ensures k.engineId in g.sessions && GoodOrder(g.orders[k])
  {
    assert OrderInv(g, k);
  }

  lemma TransitionKeepsGateway(b: Bridge, store: Store, t: Transition)
    requires GoodStore(store) && GoodGateway(b.g)
    ensures GoodGateway(ProcessTransition(b, store, t).g)
  {
    hide GatewayInv, GoodSessions, EmitAll, SubmitResult, SubmitViews, GoodStore;
    if t.Granted? && t.kind != CancelOrder {
      var k, f := KeyFor(t.fields), t.fields;
      var views := if t.kind == NewOrder then b.views else Erase(b, k).views;
      EmitAllKeeps(b.g, k, SubmitResult(views, store, RequestFor(f)).fills, f.timestamp);
    }
  }
}
