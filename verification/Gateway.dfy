/** The order gateway: engines send requests over their channel, every request is answered by one
    acknowledgement or reject, and fills are reported on open orders. */
module Gateways {
  import opened Domain
  import opened Channels

  datatype OrderStatus =
    New | Accepted | ModifyRequested | CancelRequested | PartiallyFilled | Filled | Cancelled | Rejected

  datatype Kind = NewOrder | CancelOrder | ModifyOrder

  datatype Fields = Fields(
    engineId: nat, orderId: nat, instrumentId: nat, side: Side, price: int, size: nat, timestamp: int,
    status: OrderStatus)

  datatype OrderRequest = OrderRequest(kind: Kind, fields: Fields)

  datatype Reason =
    DuplicateOrderId | UnknownOrderId | InvalidInstrument | InvalidSide | InvalidPrice | InvalidQuantity |
    AlreadyTerminal

  datatype OrderEvent =
    | Ack(fields: Fields, kind: Kind)
    | Filling(fields: Fields, fillPrice: int, fillSize: nat, remaining: nat)
    | Reject(fields: Fields, reason: Reason)

  datatype Key = Key(engineId: nat, orderId: nat)

  datatype OrderSnapshot = OrderSnapshot(
    instrumentId: nat, side: Side, price: int, originalSize: nat, remaining: nat, status: OrderStatus,
    timestamp: int)

  datatype Transition =
    | Granted(kind: Kind, fields: Fields, snapshot: OrderSnapshot)
    | Refused(kind: Kind, fields: Fields, reason: Reason)

  type Orders = map<Key, OrderSnapshot>

  datatype Session = Session(requests: Channel<OrderRequest>, events: Channel<OrderEvent>)

  datatype Gateway = Gateway(orders: Orders, sessions: map<nat, Session>)

  predicate Terminal(status: OrderStatus) {
    status == Filled || status == Cancelled || status == Rejected
  }

  predicate Open(orders: Orders, k: Key) {
    k in orders && !Terminal(orders[k].status)
  }

  // ---- the simple form: one order, one request ----

  function Lookup(orders: Orders, k: Key): Option<OrderSnapshot> {
    if k in orders then Some(orders[k]) else None
  }

  /** Why a request about an order in the given state is refused, if it is. */
  function Verdict(order: Option<OrderSnapshot>, req: OrderRequest): Option<Reason> {
    var f := req.fields;
    if req.kind == NewOrder && order != None then Some(DuplicateOrderId)
    else if req.kind == NewOrder && f.instrumentId == 0 then Some(InvalidInstrument)
    else if req.kind != NewOrder && order == None then Some(UnknownOrderId)
    else if req.kind != NewOrder && Terminal(order.value.status) then Some(AlreadyTerminal)
    else if req.kind == CancelOrder then None
    else if !ActiveSide(f.side) then Some(InvalidSide)
    else if f.price == UNDEFINED_PRICE then Some(InvalidPrice)
    else if f.size == 0 then Some(InvalidQuantity)
    else None
  }

  /** The order after an accepted request. A modify keeps the instrument of the order. */
  function Accept(order: Option<OrderSnapshot>, req: OrderRequest): OrderSnapshot
    requires Verdict(order, req) == None
  {
    var f := req.fields;
    match req.kind
    case NewOrder => OrderSnapshot(f.instrumentId, f.side, f.price, f.size, f.size, Accepted, f.timestamp)
    case ModifyOrder =>
      OrderSnapshot(order.value.instrumentId, f.side, f.price, f.size, f.size, Accepted, f.timestamp)
    case CancelOrder => order.value.(status := Cancelled, timestamp := f.timestamp)
  }

  function AckStatus(kind: Kind): OrderStatus {
    if kind == CancelOrder then Cancelled else Accepted
  }

  function KeyOf(e: nat, req: OrderRequest): Key {
    Key(e, req.fields.orderId)
  }

  /** The event that answers a request. */
  function Answer(orders: Orders, e: nat, req: OrderRequest): OrderEvent {
    match Verdict(Lookup(orders, KeyOf(e, req)), req)
    case None => Ack(req.fields.(engineId := e, status := AckStatus(req.kind)), req.kind)
    case Some(reason) => Reject(req.fields.(engineId := e, status := Rejected), reason)
  }

  function OrdersAfter(orders: Orders, e: nat, req: OrderRequest): Orders {
    var k := KeyOf(e, req);
    if Verdict(Lookup(orders, k), req) == None then orders[k := Accept(Lookup(orders, k), req)] else orders
  }

  function TransitionOf(orders: Orders, e: nat, req: OrderRequest): Transition {
    var order := Lookup(orders, KeyOf(e, req));
    match Verdict(order, req)
    case None => Granted(req.kind, req.fields.(engineId := e, status := AckStatus(req.kind)), Accept(order, req))
    case Some(reason) => Refused(req.kind, req.fields.(engineId := e, status := Rejected), reason)
  }

  function PushEvent(g: Gateway, e: nat, event: OrderEvent): Gateway
    requires e in g.sessions
  {
    var s := g.sessions[e];
    g.(sessions := g.sessions[e := s.(events := s.events.Push(event))])
  }

  function Process(g: Gateway, e: nat, req: OrderRequest): Gateway
    requires e in g.sessions
  {
    PushEvent(g.(orders := OrdersAfter(g.orders, e, req)), e, Answer(g.orders, e, req))
  }

  predicate Waiting(g: Gateway, e: nat) {
    e in g.sessions && g.sessions[e].requests.CanPop()
  }

  predicate GoodSessions(g: Gateway) {
    forall e :: e in g.sessions ==> g.sessions[e].requests.Valid() && g.sessions[e].events.Valid()
  }

  function NextRequest(g: Gateway, e: nat): OrderRequest
    requires GoodSessions(g) && Waiting(g, e)
  {
    g.sessions[e].requests.Front()
  }

  /** Take the next request of an engine's channel and answer it. */
  function Serve(g: Gateway, e: nat): Gateway
    requires GoodSessions(g) && Waiting(g, e)
  {
    var s := g.sessions[e];
    Process(g.(sessions := g.sessions[e := s.(requests := s.requests.Pop())]), e, s.requests.Front())
  }

  /** A fill reaches the order when it is open; it takes at most what remains. */
  predicate CanFill(g: Gateway, k: Key, size: nat) {
    size != 0 && k.engineId in g.sessions && Open(g.orders, k)
  }

  function FillOrder(o: OrderSnapshot, size: nat, timestamp: int): OrderSnapshot {
    var rest := o.remaining - Min(size, o.remaining);
    o.(remaining := rest, status := if rest == 0 then Filled else PartiallyFilled, timestamp := timestamp)
  }

  function FillEvent(k: Key, o: OrderSnapshot, price: int, size: nat, timestamp: int): OrderEvent {
    var o' := FillOrder(o, size, timestamp);
    Filling(Fields(k.engineId, k.orderId, o.instrumentId, o.side, o.price, o.originalSize, timestamp, o'.status),
            price, Min(size, o.remaining), o'.remaining)
  }

  function Emit(g: Gateway, k: Key, price: int, size: nat, timestamp: int): Gateway {
    if !CanFill(g, k, size) then g
    else
      var o := g.orders[k];
      PushEvent(g.(orders := g.orders[k := FillOrder(o, size, timestamp)]),
                k.engineId, FillEvent(k, o, price, size, timestamp))
  }

  // ---- the life of an order, read off its engine's event channel ----

  datatype Phase = Fresh | Live | Closed | Broken

  /** What was last accepted for an order, its size apart. */
  datatype Terms = Terms(instrumentId: nat, side: Side, price: int)

  /** Where an order stands, the size and terms last accepted for it, what was filled since, and its last change. */
  datatype Life = Life(phase: Phase, size: nat, filled: nat, terms: Terms, at: int)

  const UNBORN: Life := Life(Fresh, 0, 0, Terms(0, NoSide, 0), 0)

  const BROKEN: Life := Life(Broken, 0, 0, Terms(0, NoSide, 0), 0)

  /** Rejects never matter. First a new order is accepted, once. While it lives it may be modified, which
      starts its account afresh and changes all terms but the instrument, and filled in parts that report its
      terms and whose remainders add up. It closes with the fill that leaves nothing or with an accepted cancel,
      and nothing but rejects follows. */
  function Lives(life: Life, ev: OrderEvent): Life {
    match ev
    case Reject(_, _) => life
    case Ack(f, NewOrder) =>
      if life.phase == Fresh then Life(Live, f.size, 0, Terms(f.instrumentId, f.side, f.price), f.timestamp)
      else BROKEN
    case Ack(f, ModifyOrder) =>
      if life.phase == Live then Life(Live, f.size, 0, life.terms.(side := f.side, price := f.price), f.timestamp)
      else BROKEN
    case Ack(f, CancelOrder) =>
      if life.phase == Live then life.(phase := Closed, at := f.timestamp) else BROKEN
    case Filling(f, _, size, remaining) =>
      if life.phase == Live && 0 < size && life.filled + size + remaining == life.size
         && f.size == life.size && f.status == (if remaining == 0 then Filled else PartiallyFilled)
         && f.instrumentId == life.terms.instrumentId && f.side == life.terms.side && f.price == life.terms.price
      then Life(if remaining == 0 then Closed else Live, life.size, life.filled + size, life.terms, f.timestamp)
      else BROKEN
  }

  function LifeOf(log: seq<OrderEvent>, orderId: nat): Life {
    if log == [] then UNBORN
    else
      var before, last := LifeOf(log[..|log| - 1], orderId), log[|log| - 1];
      if last.fields.orderId == orderId then Lives(before, last) else before
  }

  ghost predicate GoodOrder(o: OrderSnapshot) {
    && o.instrumentId != 0 && ActiveSide(o.side) && o.price != UNDEFINED_PRICE
    && 0 < o.originalSize && o.remaining <= o.originalSize
    && (o.status == Filled <==> o.remaining == 0)
    && (o.status == Accepted ==> o.remaining == o.originalSize)
    && (o.status == PartiallyFilled ==> o.remaining < o.originalSize)
    && o.status in {Accepted, PartiallyFilled, Filled, Cancelled}
  }

  /** The gateway's record of an order is what its events say. */
  ghost predicate Follows(order: Option<OrderSnapshot>, life: Life) {
    match order
    case None => life == UNBORN
    case Some(o) =>
      && GoodOrder(o)
      && life == Life(if Terminal(o.status) then Closed else Live, o.originalSize, o.originalSize - o.remaining,
                      Terms(o.instrumentId, o.side, o.price), o.timestamp)
  }

  predicate SameTerms(f: Fields, f': Fields) {
    && f.instrumentId == f'.instrumentId && f.side == f'.side && f.price == f'.price && f.size == f'.size
    && f.timestamp == f'.timestamp
  }

  lemma RequestFollows(order: Option<OrderSnapshot>, life: Life, req: OrderRequest, ev: OrderEvent)
    requires Follows(order, life)
    requires match Verdict(order, req)
             case None => ev.Ack? && ev.kind == req.kind && SameTerms(ev.fields, req.fields)
             case Some(_) => ev.Reject?
    ensures Follows(if Verdict(order, req) == None then Some(Accept(order, req)) else order, Lives(life, ev))
  {
  }

  lemma FillFollows(k: Key, o: OrderSnapshot, life: Life, price: int, size: nat, timestamp: int)
    requires Follows(Some(o), life) && !Terminal(o.status) && size > 0
    ensures Follows(Some(FillOrder(o, size, timestamp)), Lives(life, FillEvent(k, o, price, size, timestamp)))
  {
  }

  // ---- answers ----

  function Answers(log: seq<OrderEvent>): (answers: seq<OrderEvent>) {
    if log == [] then []
    else
      var before, last := Answers(log[..|log| - 1]), log[|log| - 1];
      if last.Filling? then before else before + [last]
  }

  /** The event answers the request: same fields, stamped with the session's engine. */
  predicate AnswersRequest(ev: OrderEvent, e: nat, req: OrderRequest) {
    match ev
    case Ack(f, kind) => kind == req.kind && f == req.fields.(engineId := e, status := AckStatus(kind))
    case Reject(f, _) => f == req.fields.(engineId := e, status := Rejected)
    case Filling(_, _, _, _) => false
  }

  /** So far one answer per request taken from the channel, in the order of the requests. */
  ghost predicate Answered(e: nat, s: Session) {
    && s.requests.Valid() && s.events.Valid()
    && |Answers(s.events.pushed)| == s.requests.popped
    && (forall j :: 0 <= j < s.requests.popped ==>
          AnswersRequest(Answers(s.events.pushed)[j], e, s.requests.pushed[j]))
  }

  // ---- the invariant ----

  ghost predicate OrderInv(g: Gateway, k: Key) {
    if k.engineId in g.sessions
    then Follows(Lookup(g.orders, k), LifeOf(g.sessions[k.engineId].events.pushed, k.orderId))
    else k !in g.orders
  }

  ghost predicate GatewayInv(g: Gateway) {
    && (forall e :: e in g.sessions ==> Answered(e, g.sessions[e]))
    && (forall k: Key :: OrderInv(g, k))
  }

  lemma AppendLife(log: seq<OrderEvent>, ev: OrderEvent, orderId: nat)
    ensures LifeOf(log + [ev], orderId)
         == if ev.fields.orderId == orderId then Lives(LifeOf(log, orderId), ev) else LifeOf(log, orderId)
    ensures Answers(log + [ev]) == if ev.Filling? then Answers(log) else Answers(log) + [ev]
  {
    assert (log + [ev])[..|log|] == log;
  }

  lemma ServeKeepsOrder(g: Gateway, e: nat, k: Key)
    requires GoodSessions(g) && Waiting(g, e) && OrderInv(g, k)
    ensures OrderInv(Serve(g, e), k)
  {
    var req, log := NextRequest(g, e), g.sessions[e].events.pushed;
    var ev, order := Answer(g.orders, e, req), Lookup(g.orders, k);
    AppendLife(log, ev, k.orderId);
    if k == KeyOf(e, req) {
      RequestFollows(order, LifeOf(log, k.orderId), req, ev);
    }
    hide Follows, Lives, LifeOf, Verdict, Accept;
  }

  lemma ServeKeepsAnswered(g: Gateway, e: nat, x: nat)
    requires GoodSessions(g) && Waiting(g, e) && x in g.sessions && Answered(x, g.sessions[x])
    ensures x in Serve(g, e).sessions && Answered(x, Serve(g, e).sessions[x])
  {
    if x == e {
      OneMoreAnswer(e, g.sessions[e], Answer(g.orders, e, NextRequest(g, e)));
      hide Answered, Verdict, OrdersAfter;
    }
  }

  lemma OneMoreAnswer(e: nat, s: Session, ev: OrderEvent)
    requires Answered(e, s) && s.requests.CanPop() && AnswersRequest(ev, e, s.requests.Front())
    ensures Answered(e, Session(s.requests.Pop(), s.events.Push(ev)))
  {
    AppendLife(s.events.pushed, ev, 0);
    hide Answers, AnswersRequest, LifeOf;
  }

  lemma ServeKeeps(g: Gateway, e: nat)
    requires GoodSessions(g) && Waiting(g, e) && GatewayInv(g)
    ensures GatewayInv(Serve(g, e)) && GoodSessions(Serve(g, e))
  {
    var g' := Serve(g, e);
    forall x | x in g'.sessions
      ensures Answered(x, g'.sessions[x])
    {
      ServeKeepsAnswered(g, e, x);
    }
    forall k: Key
      ensures OrderInv(g', k)
    {
      ServeKeepsOrder(g, e, k);
    }
    hide OrderInv;
  }

  lemma EmitKeepsOrder(g: Gateway, k: Key, price: int, size: nat, timestamp: int, j: Key)
    requires OrderInv(g, k) && OrderInv(g, j)
    ensures OrderInv(Emit(g, k, price, size, timestamp), j)
  {
    if CanFill(g, k, size) {
      var o, log := g.orders[k], g.sessions[k.engineId].events.pushed;
      AppendLife(log, FillEvent(k, o, price, size, timestamp), j.orderId);
      FillFollows(k, o, LifeOf(log, k.orderId), price, size, timestamp);
      hide Follows, Lives, LifeOf, FillOrder;
    }
  }

  lemma EmitKeeps(g: Gateway, k: Key, price: int, size: nat, timestamp: int)
    requires GatewayInv(g)
    ensures GatewayInv(Emit(g, k, price, size, timestamp))
  {
    var g' := Emit(g, k, price, size, timestamp);
    forall x | x in g'.sessions
      ensures Answered(x, g'.sessions[x])
    {
      if CanFill(g, k, size) && x == k.engineId {
        AppendLife(g.sessions[x].events.pushed, FillEvent(k, g.orders[k], price, size, timestamp), 0);
      }
      hide Answers, FillOrder;
    }
    forall j: Key
      ensures OrderInv(g', j)
    {
      EmitKeepsOrder(g, k, price, size, timestamp, j);
    }
  }

  // ---- runs ----

  datatype Step =
    | SendRequest(e: nat, req: OrderRequest)
    | FlushRequests(e: nat)
    | ServeNext(e: nat)
    | EmitFill(k: Key, price: int, size: nat, timestamp: int)
    | FlushEvents(e: nat)
    | ReadEvent(e: nat)

  /** The effect of a step on one session, for the steps that only move messages. */
  function Move(s: Session, step: Step): Session {
    match step
    case SendRequest(_, req) => s.(requests := s.requests.Push(req))
    case FlushRequests(_) => s.(requests := s.requests.Flush())
    case FlushEvents(_) => s.(events := s.events.Flush())
    case ReadEvent(_) => if s.events.CanPop() then s.(events := s.events.Pop()) else s
    case _ => s
  }

  function Advance(g: Gateway, step: Step): Gateway
    requires GoodSessions(g)
  {
    match step
    case ServeNext(e) => if Waiting(g, e) then Serve(g, e) else g
    case EmitFill(k, price, size, timestamp) => Emit(g, k, price, size, timestamp)
    case _ => if step.e in g.sessions then g.(sessions := g.sessions[step.e := Move(g.sessions[step.e], step)]) else g
  }

  lemma MoveKeeps(g: Gateway, step: Step)
    requires GoodSessions(g) && GatewayInv(g) && !step.ServeNext? && !step.EmitFill?
    ensures GatewayInv(Advance(g, step)) && GoodSessions(Advance(g, step))
  {
    var g' := Advance(g, step);
    forall k: Key
      ensures OrderInv(g', k)
    {
      assert OrderInv(g, k);
      hide Follows;
    }
    forall x | x in g'.sessions
      ensures Answered(x, g'.sessions[x])
    {
      assert Answered(x, g.sessions[x]);
      hide AnswersRequest;
    }
  }

  lemma EmitKeepsSessions(g: Gateway, k: Key, price: int, size: nat, timestamp: int)
    requires GoodSessions(g)
    ensures GoodSessions(Emit(g, k, price, size, timestamp))
  {
    hide FillEvent, FillOrder;
  }

  lemma AdvanceKeeps(g: Gateway, step: Step)
    requires GoodSessions(g) && GatewayInv(g)
    ensures GatewayInv(Advance(g, step)) && GoodSessions(Advance(g, step))
  {
    hide GatewayInv, GoodSessions;
    match step
    case ServeNext(e) =>
      if Waiting(g, e) {
        ServeKeeps(g, e);
      }
    case EmitFill(k, price, size, timestamp) =>
      EmitKeeps(g, k, price, size, timestamp);
      EmitKeepsSessions(g, k, price, size, timestamp);
    case _ => MoveKeeps(g, step);
  }

  /** A gateway with fixed sessions and nothing sent yet. */
  predicate Opening(g: Gateway) {
    && g.orders == map[]
    && forall e :: e in g.sessions ==>
         && g.sessions[e].requests == Empty(g.sessions[e].requests.batch) && g.sessions[e].requests.batch > 0
         && g.sessions[e].events == Empty(g.sessions[e].events.batch) && g.sessions[e].events.batch > 0
  }

  lemma OpeningGood(g: Gateway)
    requires Opening(g)
    ensures GatewayInv(g) && GoodSessions(g)
  {
    forall k: Key
      ensures OrderInv(g, k)
    {
    }
  }

  function Run(start: Gateway, steps: seq<Step>): (g: Gateway)
    requires Opening(start)
    ensures GoodSessions(g) && GatewayInv(g)
  {
    OpeningGood(start);
    if steps == [] then start
    else
      var before := Run(start, steps[..|steps| - 1]);
      AdvanceKeeps(before, steps[|steps| - 1]);
      Advance(before, steps[|steps| - 1])
  }

  /** Whatever is sent and whatever is filled, every order lives by the protocol: its events are never out
      of place, what was filled since it was last accepted and what remains make up its size, and it is
      closed exactly when the gateway holds it as filled or cancelled. */
  lemma EveryOrderLivesByProtocol(start: Gateway, steps: seq<Step>, k: Key)
    requires Opening(start) && k.engineId in start.sessions
    ensures
      var g := Run(start, steps);
      k.engineId in g.sessions &&
      var life := LifeOf(g.sessions[k.engineId].events.pushed, k.orderId);
      && life.phase != Broken
      && (life.phase == Fresh <==> k !in g.orders)
      && (life.phase == Live <==> Open(g.orders, k))
      && (k in g.orders ==>
            var o := g.orders[k];
            && life.size == o.originalSize && life.filled + o.remaining == life.size
            && life.terms == Terms(o.instrumentId, o.side, o.price) && life.at == o.timestamp
            && (o.status == Filled <==> o.remaining == 0)
            && (life.phase == Closed <==> o.status == Filled || o.status == Cancelled))
  {
    SessionsStay(start, steps);
    assert OrderInv(Run(start, steps), k);
  }

  lemma {:induction false} SessionsStay(start: Gateway, steps: seq<Step>)
    requires Opening(start)
    ensures Run(start, steps).sessions.Keys == start.sessions.Keys
  {
    if steps != [] {
      SessionsStay(start, steps[..|steps| - 1]);
      hide Advance, GatewayInv, GoodSessions, Opening;
      AdvanceKeepsKeys(Run(start, steps[..|steps| - 1]), steps[|steps| - 1]);
    }
  }

  lemma AdvanceKeepsKeys(g: Gateway, step: Step)
    requires GoodSessions(g)
    ensures Advance(g, step).sessions.Keys == g.sessions.Keys
  {
    hide OrdersAfter, Answer, FillOrder, FillEvent;
  }

  /** The j-th answer on a channel answers the j-th request taken from it, and there are no others. */
  lemma EveryRequestAnsweredOnce(start: Gateway, steps: seq<Step>, e: nat)
    requires Opening(start) && e in start.sessions
    ensures e in Run(start, steps).sessions
    ensures
      var s := Run(start, steps).sessions[e];
      && |Answers(s.events.pushed)| == s.requests.popped <= |s.requests.pushed|
      && forall j :: 0 <= j < s.requests.popped ==>
           AnswersRequest(Answers(s.events.pushed)[j], e, s.requests.pushed[j])
  {
    SessionsStay(start, steps);
    assert Answered(e, Run(start, steps).sessions[e]);
  }

  // ---- draining ----

  /** A request together with the session it came over. */
  datatype Item = Item(e: nat, req: OrderRequest)

  function OrdersRun(orders: Orders, items: seq<Item>): Orders
    decreases |items|
  {
    if items == [] then orders else OrdersRun(OrdersAfter(orders, items[0].e, items[0].req), items[1..])
  }

  function TransitionsRun(orders: Orders, items: seq<Item>): seq<Transition>
    decreases |items|
  {
    if items == [] then []
    else
      [TransitionOf(orders, items[0].e, items[0].req)]
      + TransitionsRun(OrdersAfter(orders, items[0].e, items[0].req), items[1..])
  }

  function Unread(g: Gateway, e: nat): seq<Item>
    requires GoodSessions(g)
  {
    if e !in g.sessions then [] else Tagged(e, g.sessions[e].requests)
  }

  function Tagged(e: nat, c: Channel<OrderRequest>): seq<Item>
    requires c.Valid()
  {
    seq(c.visible - c.popped, i requires 0 <= i < c.visible - c.popped => Item(e, c.pushed[c.popped + i]))
  }

  lemma TaggedFirst(e: nat, c: Channel<OrderRequest>)
    requires c.Valid() && c.CanPop()
    ensures Tagged(e, c) == [Item(e, c.Front())] + Tagged(e, c.Pop())
  {
  }

  /** Everything a drain will meet, in the order in which it meets it. */
  function Backlog(g: Gateway, order: seq<nat>): seq<Item>
    requires GoodSessions(g)
  {
    if order == [] then [] else Unread(g, order[0]) + Backlog(g, order[1..])
  }

  datatype Drained = Drained(g: Gateway, transitions: seq<Transition>) {
    function After(earlier: seq<Transition>): Drained {
      this.(transitions := earlier + transitions)
    }
  }

  lemma ServeKeepsSessions(g: Gateway, e: nat)
    requires GoodSessions(g) && Waiting(g, e)
    ensures GoodSessions(Serve(g, e)) && Serve(g, e).sessions.Keys == g.sessions.Keys
    ensures Serve(g, e).sessions[e].requests == g.sessions[e].requests.Pop()
    ensures forall x :: x in g.sessions && x != e ==> Serve(g, e).sessions[x] == g.sessions[x]
    ensures Serve(g, e).orders == OrdersAfter(g.orders, e, NextRequest(g, e))
  {
    hide OrdersAfter, Answer;
  }

  lemma ServeTakesFirst(g: Gateway, e: nat)
    requires GoodSessions(g) && Waiting(g, e)
    ensures GoodSessions(Serve(g, e))
    ensures Unread(g, e) == [Item(e, NextRequest(g, e))] + Unread(Serve(g, e), e)
  {
    ServeKeepsSessions(g, e);
    TaggedFirst(e, g.sessions[e].requests);
    hide Serve, Tagged;
  }

  function DrainEngine(g: Gateway, e: nat): (d: Drained)
    requires GoodSessions(g)
    ensures GoodSessions(d.g)
    decreases if e in g.sessions then g.sessions[e].requests.visible - g.sessions[e].requests.popped else 0
  {
    if !Waiting(g, e) then Drained(g, [])
    else
      ServeKeepsSessions(g, e);
      var rest := DrainEngine(Serve(g, e), e);
      rest.(transitions := [TransitionOf(g.orders, e, NextRequest(g, e))] + rest.transitions)
  }

  function DrainAll(g: Gateway, order: seq<nat>): (d: Drained)
    requires GoodSessions(g)
    ensures GoodSessions(d.g)
    decreases |order|
  {
    if order == [] then Drained(g, [])
    else
      var first := DrainEngine(g, order[0]);
      var rest := DrainAll(first.g, order[1..]);
      rest.(transitions := first.transitions + rest.transitions)
  }

  lemma {:induction false} RunAppend(orders: Orders, a: seq<Item>, b: seq<Item>)
    ensures OrdersRun(orders, a + b) == OrdersRun(OrdersRun(orders, a), b)
    ensures TransitionsRun(orders, a + b) == TransitionsRun(orders, a) + TransitionsRun(OrdersRun(orders, a), b)
    decreases |a|
  {
    if a == [] {
      assert a + b == b;
    } else {
      assert (a + b)[1..] == a[1..] + b;
      RunAppend(OrdersAfter(orders, a[0].e, a[0].req), a[1..], b);
      hide OrdersAfter, TransitionOf;
    }
  }

  /** Draining one channel takes all that is visible, answers it in order, and touches no other session. */
  lemma {:induction false} DrainEngineMeaning(g: Gateway, e: nat)
    requires GoodSessions(g)
    ensures
      var d := DrainEngine(g, e);
      && d.g.orders == OrdersRun(g.orders, Unread(g, e))
      && d.transitions == TransitionsRun(g.orders, Unread(g, e))
      && d.g.sessions.Keys == g.sessions.Keys
      && (e in g.sessions ==>
            d.g.sessions[e].requests == g.sessions[e].requests.(popped := g.sessions[e].requests.visible))
      && forall x :: x in g.sessions && x != e ==> d.g.sessions[x] == g.sessions[x]
    decreases if e in g.sessions then g.sessions[e].requests.visible - g.sessions[e].requests.popped else 0
  {
    if Waiting(g, e) {
      ServeKeepsSessions(g, e);
      ServeTakesFirst(g, e);
      DrainEngineMeaning(Serve(g, e), e);
      hide OrdersAfter, TransitionOf, Serve, Unread;
      var item := Item(e, NextRequest(g, e));
      assert ([item] + Unread(Serve(g, e), e))[1..] == Unread(Serve(g, e), e);
    } else {
      assert Unread(g, e) == [];
    }
  }

  ghost predicate Distinct(order: seq<nat>) {
    forall i, j :: 0 <= i < j < |order| ==> order[i] != order[j]
  }

  lemma {:induction false} BacklogFrame(g: Gateway, h: Gateway, order: seq<nat>)
    requires GoodSessions(g) && GoodSessions(h) && g.sessions.Keys == h.sessions.Keys
    requires forall k :: 0 <= k < |order| && order[k] in g.sessions ==> h.sessions[order[k]] == g.sessions[order[k]]
    ensures Backlog(g, order) == Backlog(h, order)
  {
    if order != [] {
      hide Tagged;
      assert Unread(g, order[0]) == Unread(h, order[0]);
      hide Unread, GoodSessions;
      BacklogFrame(g, h, order[1..]);
    }
  }

  /** Draining all sessions answers the whole backlog in order. */
  lemma {:induction false} DrainAllMeaning(g: Gateway, order: seq<nat>)
    requires GoodSessions(g) && Distinct(order)
    ensures
      var d := DrainAll(g, order);
      && d.g.orders == OrdersRun(g.orders, Backlog(g, order))
      && d.transitions == TransitionsRun(g.orders, Backlog(g, order))
      && d.g.sessions.Keys == g.sessions.Keys
    decreases |order|
  {
    if order != [] {
      hide OrdersRun, TransitionsRun, Unread, DrainEngine, GoodSessions;
      var first := DrainEngine(g, order[0]);
      DrainEngineMeaning(g, order[0]);
      BacklogFrame(g, first.g, order[1..]);
      assert Distinct(order[1..]);
      hide Distinct;
      DrainAllMeaning(first.g, order[1..]);
      RunAppend(g.orders, Unread(g, order[0]), Backlog(g, order[1..]));
    }
  }

  lemma {:induction false} DrainEngineKeeps(g: Gateway, e: nat)
    requires GoodSessions(g) && GatewayInv(g)
    ensures GatewayInv(DrainEngine(g, e).g)
    decreases if e in g.sessions then g.sessions[e].requests.visible - g.sessions[e].requests.popped else 0
  {
    if Waiting(g, e) {
      ServeKeepsSessions(g, e);
      ServeKeeps(g, e);
      hide Serve, GatewayInv, GoodSessions, Unread;
      DrainEngineKeeps(Serve(g, e), e);
    }
  }

  lemma {:induction false} DrainAllKeeps(g: Gateway, order: seq<nat>)
    requires GoodSessions(g) && GatewayInv(g)
    ensures GatewayInv(DrainAll(g, order).g)
    decreases |order|
  {
    if order != [] {
      hide GatewayInv, GoodSessions;
      DrainEngineKeeps(g, order[0]);
      DrainAllKeeps(DrainEngine(g, order[0]).g, order[1..]);
    }
  }

  lemma DrainEngineStep(g: Gateway, e: nat, earlier: seq<Transition>)
    requires GoodSessions(g) && Waiting(g, e)
    ensures GoodSessions(Serve(g, e))
    ensures DrainEngine(g, e).After(earlier)
         == DrainEngine(Serve(g, e), e).After(earlier + [TransitionOf(g.orders, e, NextRequest(g, e))])
  {
    ServeKeepsSessions(g, e);
    hide Serve, TransitionOf, GoodSessions;
    var t, rest := TransitionOf(g.orders, e, NextRequest(g, e)), DrainEngine(Serve(g, e), e).transitions;
    assert earlier + ([t] + rest) == earlier + [t] + rest;
  }

  lemma DrainEngineNothing(g: Gateway, e: nat)
    requires GoodSessions(g) && !Waiting(g, e)
    ensures DrainEngine(g, e) == Drained(g, [])
  {
  }

  lemma DrainAllStep(g: Gateway, order: seq<nat>, earlier: seq<Transition>)
    requires GoodSessions(g) && order != []
    ensures
      var first := DrainEngine(g, order[0]);
      DrainAll(g, order).After(earlier) == DrainAll(first.g, order[1..]).After(earlier + first.transitions)
  {
    hide DrainEngine, GoodSessions;
    var first := DrainEngine(g, order[0]);
    var rest := DrainAll(first.g, order[1..]).transitions;
    assert earlier + (first.transitions + rest) == earlier + first.transitions + rest;
  }

  lemma DrainAllNothing(g: Gateway)
    requires GoodSessions(g)
    ensures DrainAll(g, []) == Drained(g, [])
  {
  }

  // ---- the server ----

  class OrderGatewayServer {
    var engineOrder: seq<nat>
    var sessions: map<nat, Session>
    var orders: Orders

    ghost predicate Valid()
      reads this
    {
      && GoodSessions(Value())
      && Distinct(engineOrder)
      && (forall e :: e in engineOrder <==> e in sessions)
    }

    ghost function Value(): Gateway
      reads this
    {
      Gateway(orders, sessions)
    }

    constructor ()
      ensures Valid() && Value() == Gateway(map[], map[]) && engineOrder == []
    {
      engineOrder, sessions, orders := [], map[], map[];
    }

    /** A new engine goes to the end of the drain order; a known one only gets another channel. */
    method RegisterEngine(e: nat, channel: Session)
      requires Valid() && channel.requests.Valid() && channel.events.Valid()
      modifies this
      ensures Valid() && Value() == old(Value()).(sessions := old(sessions)[e := channel])
      ensures engineOrder == if e in old(sessions) then old(engineOrder) else old(engineOrder) + [e]
    {
      if e !in sessions {
        engineOrder := engineOrder + [e];
      }
      sessions := sessions[e := channel];
    }

    /** Engine by engine, answer requests until the channel shows no more. */
    method DrainRequests() returns (transitions: seq<Transition>)
      requires Valid()
      modifies `sessions, `orders
      ensures Valid()
      ensures Drained(Value(), transitions) == DrainAll(old(Value()), engineOrder)
    {
      hide DrainEngine, DrainAll, GoodSessions, Distinct;
      transitions := [];
      ghost var all := DrainAll(Value(), engineOrder);
      assert engineOrder[0..] == engineOrder;
      for k := 0 to |engineOrder|
        invariant GoodSessions(Value()) && sessions.Keys == old(sessions.Keys)
        invariant all == DrainAll(Value(), engineOrder[k..]).After(transitions)
      {
        assert engineOrder[k] in engineOrder;
        DrainAllStep(Value(), engineOrder[k..], transitions);
        assert engineOrder[k..][1..] == engineOrder[k + 1..];
        var served := DrainSession(engineOrder[k]);
        transitions := transitions + served;
      }
      assert engineOrder[|engineOrder|..] == [];
      DrainAllNothing(Value());
    }

    method DrainSession(e: nat) returns (transitions: seq<Transition>)
      requires GoodSessions(Value()) && e in sessions
      modifies `sessions, `orders
      ensures GoodSessions(Value()) && sessions.Keys == old(sessions.Keys)
      ensures Drained(Value(), transitions) == DrainEngine(old(Value()), e)
    {
      hide DrainEngine, GoodSessions, TransitionOf, Serve;
      transitions := [];
      ghost var all := DrainEngine(Value(), e);
      while sessions[e].requests.CanPop()
        invariant GoodSessions(Value()) && sessions.Keys == old(sessions.Keys)
        invariant all == DrainEngine(Value(), e).After(transitions)
        decreases sessions[e].requests.visible - sessions[e].requests.popped
      {
        DrainEngineStep(Value(), e, transitions);
        var t := ServeRequest(e);
        transitions := transitions + [t];
      }
      DrainEngineNothing(Value(), e);
    }

    method ServeRequest(e: nat) returns (t: Transition)
      requires GoodSessions(Value()) && Waiting(Value(), e)
      modifies `sessions, `orders
      ensures GoodSessions(Value())
      ensures t == TransitionOf(old(orders), e, old(NextRequest(Value(), e)))
      ensures Value() == Serve(old(Value()), e)
      ensures sessions.Keys == old(sessions).Keys
      ensures sessions[e].requests == old(sessions[e].requests).Pop()
    {
      ServeKeepsSessions(Value(), e);
      hide Answer, OrdersAfter, TransitionOf;
      var s := sessions[e];
      var req := s.requests.Front();
      sessions := sessions[e := s.(requests := s.requests.Pop())];
      t := ProcessRequest(e, req);
    }

    method ProcessRequest(e: nat, req: OrderRequest) returns (t: Transition)
      requires e in sessions
      modifies `sessions, `orders
      ensures Value() == Process(old(Value()), e, req)
      ensures t == TransitionOf(old(orders), e, req)
    {
      match req.kind
      case NewOrder => t := ProcessNewOrder(e, req.fields);
      case CancelOrder => t := ProcessCancelOrder(e, req.fields);
      case ModifyOrder => t := ProcessModifyOrder(e, req.fields);
    }

    method ProcessNewOrder(e: nat, f: Fields) returns (t: Transition)
      requires e in sessions
      modifies `sessions, `orders
      ensures Value() == Process(old(Value()), e, OrderRequest(NewOrder, f))
      ensures t == TransitionOf(old(orders), e, OrderRequest(NewOrder, f))
    {
      var k := Key(e, f.orderId);
      if k in orders {
        t := PushReject(e, f, NewOrder, DuplicateOrderId);
      } else if f.instrumentId == 0 {
        t := PushReject(e, f, NewOrder, InvalidInstrument);
      } else if !ActiveSide(f.side) {
        t := PushReject(e, f, NewOrder, InvalidSide);
      } else if f.price == UNDEFINED_PRICE {
        t := PushReject(e, f, NewOrder, InvalidPrice);
      } else if f.size == 0 {
        t := PushReject(e, f, NewOrder, InvalidQuantity);
      } else {
        var o := OrderSnapshot(f.instrumentId, f.side, f.price, f.size, f.size, Accepted, f.timestamp);
        orders := orders[k := o];
        t := PushAck(e, f, NewOrder, Accepted, o);
      }
    }

    method ProcessCancelOrder(e: nat, f: Fields) returns (t: Transition)
      requires e in sessions
      modifies `sessions, `orders
      ensures Value() == Process(old(Value()), e, OrderRequest(CancelOrder, f))
      ensures t == TransitionOf(old(orders), e, OrderRequest(CancelOrder, f))
    {
      var k := Key(e, f.orderId);
      if k !in orders {
        t := PushReject(e, f, CancelOrder, UnknownOrderId);
      } else if Terminal(orders[k].status) {
        t := PushReject(e, f, CancelOrder, AlreadyTerminal);
      } else {
        var o := orders[k].(status := Cancelled, timestamp := f.timestamp);
        orders := orders[k := o];
        t := PushAck(e, f, CancelOrder, Cancelled, o);
      }
    }

    method ProcessModifyOrder(e: nat, f: Fields) returns (t: Transition)
      requires e in sessions
      modifies `sessions, `orders
      ensures Value() == Process(old(Value()), e, OrderRequest(ModifyOrder, f))
      ensures t == TransitionOf(old(orders), e, OrderRequest(ModifyOrder, f))
    {
      var k := Key(e, f.orderId);
      if k !in orders {
        t := PushReject(e, f, ModifyOrder, UnknownOrderId);
      } else if Terminal(orders[k].status) {
        t := PushReject(e, f, ModifyOrder, AlreadyTerminal);
      } else if !ActiveSide(f.side) {
        t := PushReject(e, f, ModifyOrder, InvalidSide);
      } else if f.price == UNDEFINED_PRICE {
        t := PushReject(e, f, ModifyOrder, InvalidPrice);
      } else if f.size == 0 {
        t := PushReject(e, f, ModifyOrder, InvalidQuantity);
      } else {
        var o := orders[k].(side := f.side, price := f.price, originalSize := f.size, remaining := f.size,
                            status := Accepted, timestamp := f.timestamp);
        orders := orders[k := o];
        t := PushAck(e, f, ModifyOrder, Accepted, o);
      }
    }

    method PushAck(e: nat, f: Fields, kind: Kind, status: OrderStatus, o: OrderSnapshot) returns (t: Transition)
      requires e in sessions
      modifies `sessions
      ensures Value() == PushEvent(old(Value()), e, Ack(f.(engineId := e, status := status), kind))
      ensures t == Granted(kind, f.(engineId := e, status := status), o)
    {
      var stamped := f.(engineId := e, status := status);
      sessions := sessions[e := sessions[e].(events := sessions[e].events.Push(Ack(stamped, kind)))];
      t := Granted(kind, stamped, o);
    }

    method PushReject(e: nat, f: Fields, kind: Kind, reason: Reason) returns (t: Transition)
      requires e in sessions
      modifies `sessions
      ensures Value() == PushEvent(old(Value()), e, Reject(f.(engineId := e, status := Rejected), reason))
      ensures t == Refused(kind, f.(engineId := e, status := Rejected), reason)
    {
      var stamped := f.(engineId := e, status := Rejected);
      sessions := sessions[e := sessions[e].(events := sessions[e].events.Push(Reject(stamped, reason)))];
      t := Refused(kind, stamped, reason);
    }

    method EmitFill(e: nat, orderId: nat, price: int, size: nat, timestamp: int) returns (emitted: bool)
      requires Valid()
      modifies `sessions, `orders
      ensures Valid() && sessions.Keys == old(sessions).Keys
      ensures emitted == CanFill(old(Value()), Key(e, orderId), size)
      ensures Value() == Emit(old(Value()), Key(e, orderId), price, size, timestamp)
    {
      var k := Key(e, orderId);
      EmitKeepsSessions(Value(), k, price, size, timestamp);
      hide GoodSessions, Distinct;
      if size == 0 || e !in sessions || k !in orders || Terminal(orders[k].status) {
        return false;
      }
      var o := orders[k];
      var actual := if size < o.remaining then size else o.remaining;
      var rest := o.remaining - actual;
      var status := if rest == 0 then Filled else PartiallyFilled;
      orders := orders[k := o.(remaining := rest, status := status, timestamp := timestamp)];
      var f := Fields(e, orderId, o.instrumentId, o.side, o.price, o.originalSize, timestamp, status);
      sessions := sessions[e := sessions[e].(events := sessions[e].events.Push(Filling(f, price, actual, rest)))];
      emitted := true;
    }

    /** Visit every order and count the open ones. */
    method OpenOrderCount() returns (count: nat)
      ensures count == |OpenKeys(orders)|
    {
      var unseen := orders.Keys;
      count := 0;
      while unseen != {}
        invariant unseen <= orders.Keys
        invariant count == |set k | k in orders && k !in unseen && !Terminal(orders[k].status)|
        decreases |unseen|
      {
        var k :| k in unseen;
        ghost var before := set x | x in orders && x !in unseen && !Terminal(orders[x].status);
        unseen := unseen - {k};
        ghost var after := set x | x in orders && x !in unseen && !Terminal(orders[x].status);
        assert after == if Terminal(orders[k].status) then before else before + {k};
        if !Terminal(orders[k].status) {
          count := count + 1;
        }
      }
      assert OpenKeys(orders) == set k | k in orders && k !in unseen && !Terminal(orders[k].status);
    }
  }

  function OpenKeys(orders: Orders): set<Key> {
    set k | k in orders && !Terminal(orders[k].status)
  }
}
