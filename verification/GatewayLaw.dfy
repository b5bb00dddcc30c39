/** Which answer each request gets, field by field, and what every reported event carries. Where an order stands is
    read off the events before the answer, so the law speaks of the channels alone. */
module GatewayLaws {
  import opened Domain
  import opened Channels
  import opened Gateways

  /** Side, price and size of a request can rest: a bid or an ask, a price below the largest 64-bit value, a size. */
  predicate GoodTerms(f: Fields) {
    (f.side == Bid || f.side == Ask) && f.price != 0x7FFF_FFFF_FFFF_FFFF && f.size > 0
  }

  /** The first thing wrong with the terms. */
  function TermsFault(f: Fields): Reason {
    if f.side != Bid && f.side != Ask then InvalidSide
    else if f.price == 0x7FFF_FFFF_FFFF_FFFF then InvalidPrice
    else InvalidQuantity
  }

  /** The answer to a request about an order in the given phase. A new order is accepted when its id is unused and its
      instrument and terms are good, a modify when the order lives and its terms are good, a cancel when the
      order lives; anything else is rejected for the first fault found. */
  predicate LawfulAnswer(e: nat, ev: OrderEvent, phase: Phase, req: OrderRequest) {
    var f := req.fields;
    var accepted, refused := f.(engineId := e, status := Accepted), f.(engineId := e, status := Rejected);
    match req.kind
    case NewOrder =>
      if phase == Fresh && f.instrumentId != 0 && GoodTerms(f) then ev == Ack(accepted, NewOrder)
      else
        ev == Reject(refused, if phase != Fresh then DuplicateOrderId
                              else if f.instrumentId == 0 then InvalidInstrument else TermsFault(f))
    case ModifyOrder =>
      if phase == Live && GoodTerms(f) then ev == Ack(accepted, ModifyOrder)
      else
        ev == Reject(refused, if phase == Fresh then UnknownOrderId
                              else if phase != Live then AlreadyTerminal else TermsFault(f))
    case CancelOrder =>
      if phase == Live then ev == Ack(f.(engineId := e, status := Cancelled), CancelOrder)
      else ev == Reject(refused, if phase == Fresh then UnknownOrderId else AlreadyTerminal)
  }

  lemma AnswerIsLawful(orders: Orders, e: nat, req: OrderRequest, life: Life)
    requires Follows(Lookup(orders, KeyOf(e, req)), life)
    ensures LawfulAnswer(e, Answer(orders, e, req), life.phase, req)
    ensures Answer(orders, e, req).fields.orderId == req.fields.orderId
  {
  }

  /** The p-th event of a channel: it names the channel's engine, and if it is an answer, it is the lawful answer to the
      request whose turn it was, given all events before it. */
  ghost predicate LawfulAt(e: nat, s: Session, p: nat)
    requires s.requests.Valid() && p < |s.events.pushed|
  {
    var log := s.events.pushed;
    && log[p].fields.engineId == e
    && (!log[p].Filling? ==>
          var n := |Answers(log[..p])|;
          && n < s.requests.popped
          && log[p].fields.orderId == s.requests.pushed[n].fields.orderId
          && LawfulAnswer(e, log[p], LifeOf(log[..p], log[p].fields.orderId).phase, s.requests.pushed[n]))
  }

  ghost predicate Lawful(e: nat, s: Session) {
    s.requests.Valid() && forall p :: 0 <= p < |s.events.pushed| ==> LawfulAt(e, s, p)
  }

  /** Events before an appended one are judged as they were. */
  lemma LawfulBefore(e: nat, s: Session, s': Session, p: nat)
    requires s.requests.Valid() && s'.requests.Valid() && p < |s.events.pushed|
    requires s.events.pushed <= s'.events.pushed && s.requests.pushed <= s'.requests.pushed
    requires s.requests.popped <= s'.requests.popped && LawfulAt(e, s, p)
    ensures LawfulAt(e, s', p)
  {
    assert s'.events.pushed[..p] == s.events.pushed[..p];
    hide LawfulAnswer, LifeOf, Answers;
  }

  lemma OneMoreLawful(e: nat, s: Session, s': Session, ev: OrderEvent)
    requires Lawful(e, s) && s'.requests.Valid() && s'.events.pushed == s.events.pushed + [ev]
    requires s.requests.pushed <= s'.requests.pushed && s.requests.popped <= s'.requests.popped
    requires ev.fields.engineId == e
    requires !ev.Filling? ==>
      var n := |Answers(s.events.pushed)|;
      && n < s'.requests.popped && ev.fields.orderId == s'.requests.pushed[n].fields.orderId
      && LawfulAnswer(e, ev, LifeOf(s.events.pushed, ev.fields.orderId).phase, s'.requests.pushed[n])
    ensures Lawful(e, s')
  {
    var log, log' := s.events.pushed, s'.events.pushed;
    assert log'[..|log|] == log;
    hide LawfulAnswer, LifeOf, Answers;
    forall p | 0 <= p < |log'|
      ensures LawfulAt(e, s', p)
    {
      if p < |log| {
        LawfulBefore(e, s, s', p);
      }
    }
  }

  lemma ServeLawful(g: Gateway, e: nat, x: nat)
    requires GoodSessions(g) && GatewayInv(g) && Waiting(g, e) && x in g.sessions && Lawful(x, g.sessions[x])
    ensures x in Serve(g, e).sessions && Lawful(x, Serve(g, e).sessions[x])
  {
    if x == e {
      var s, req := g.sessions[e], NextRequest(g, e);
      var k := KeyOf(e, req);
      assert OrderInv(g, k) && Answered(e, s);
      var life := LifeOf(s.events.pushed, k.orderId);
      var ev := Answer(g.orders, e, req);
      AnswerIsLawful(g.orders, e, req, life);
      assert Serve(g, e).sessions[e] == Session(s.requests.Pop(), s.events.Push(ev));
      hide GatewayInv, OrderInv, Answer, LawfulAnswer, LifeOf, Answers, Serve, Lawful;
      OneMoreLawful(e, s, Session(s.requests.Pop(), s.events.Push(ev)), ev);
    }
  }

  lemma EmitLawful(g: Gateway, k: Key, price: int, size: nat, timestamp: int, x: nat)
    requires x in g.sessions && Lawful(x, g.sessions[x])
    ensures
      var g' := Emit(g, k, price, size, timestamp);
      x in g'.sessions && Lawful(x, g'.sessions[x])
  {
    if CanFill(g, k, size) && x == k.engineId {
      var s, ev := g.sessions[x], FillEvent(k, g.orders[k], price, size, timestamp);
      assert Emit(g, k, price, size, timestamp).sessions[x] == s.(events := s.events.Push(ev));
      hide Emit, FillOrder, Lawful;
      OneMoreLawful(x, s, s.(events := s.events.Push(ev)), ev);
    }
  }

  lemma MoveLawful(e: nat, s: Session, step: Step)
    requires Lawful(e, s) && s.events.Valid()
    ensures Lawful(e, Move(s, step))
  {
    var s' := Move(s, step);
    forall p | 0 <= p < |s'.events.pushed|
      ensures LawfulAt(e, s', p)
    {
      assert LawfulAt(e, s, p);
      LawfulBefore(e, s, s', p);
    }
  }

  lemma AdvanceLawful(g: Gateway, step: Step, x: nat)
    requires GoodSessions(g) && GatewayInv(g) && x in g.sessions && Lawful(x, g.sessions[x])
    ensures x in Advance(g, step).sessions && Lawful(x, Advance(g, step).sessions[x])
  {
    match step
    case ServeNext(e) =>
      hide Lawful, Serve, GatewayInv, GoodSessions;
      if Waiting(g, e) {
        ServeLawful(g, e, x);
      }
    case EmitFill(k, price, size, timestamp) =>
      hide Lawful, Emit, GatewayInv, GoodSessions;
      EmitLawful(g, k, price, size, timestamp, x);
    case _ =>
      MoveLawful(x, g.sessions[x], step);
      hide Lawful, Move, GatewayInv;
  }

  /** Over every run and on every channel: each event names the channel's engine, and each answer is the lawful one for
      the request whose turn it was, given what the channel said of that order before. */
  lemma {:induction false} EveryAnswerIsLawful(start: Gateway, steps: seq<Step>, e: nat)
    requires Opening(start) && e in start.sessions
    ensures e in Run(start, steps).sessions && Lawful(e, Run(start, steps).sessions[e])
  {
    if steps != [] {
      hide Lawful, Advance, GatewayInv, GoodSessions, Opening;
      EveryAnswerIsLawful(start, steps[..|steps| - 1], e);
      AdvanceLawful(Run(start, steps[..|steps| - 1]), steps[|steps| - 1], e);
    }
  }
}
