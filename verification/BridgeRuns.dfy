/** Whole drains and whole runs of the bridge: exactly when every order is linked afterwards. */
module BridgeRuns {
  import opened Domain
  import opened EngineViews
  import opened HistoricalLobStores
  import opened Gateways
  import opened Bridges

  // ---- the accepted requests of a drain ----

  ghost predicate GrantFor(ts: seq<Transition>, j: int, k: Key) {
    0 <= j < |ts| && ts[j].Granted? && KeyFor(ts[j].fields) == k
  }

  /** Some request of order k among ts[lo..hi] was accepted. */
  ghost predicate GrantWithin(ts: seq<Transition>, lo: int, hi: int, k: Key) {
    exists j :: lo <= j < hi && GrantFor(ts, j, k)
  }

  /** The last accepted request of its order. */
  ghost predicate LastGrant(ts: seq<Transition>, n: int) {
    0 <= n < |ts| && ts[n].Granted? && !GrantWithin(ts, n + 1, |ts|, KeyFor(ts[n].fields))
  }

  lemma GrantedInRest(ts: seq<Transition>, rest: seq<Transition>, lo: int, hi: int, k: Key)
    requires ts != [] && ts[1..] == rest && 0 <= lo && hi <= |rest|
    ensures GrantWithin(rest, lo, hi, k) <==> GrantWithin(ts, lo + 1, hi + 1, k)
  {
    if GrantWithin(rest, lo, hi, k) {
      var j :| lo <= j < hi && GrantFor(rest, j, k);
      assert GrantFor(ts, j + 1, k);
    }
    if GrantWithin(ts, lo + 1, hi + 1, k) {
      var j :| lo + 1 <= j < hi + 1 && GrantFor(ts, j, k);
      assert GrantFor(rest, j - 1, k);
    }
  }

  lemma {:induction false} TransitionsLength(orders: Orders, items: seq<Item>)
    ensures |TransitionsRun(orders, items)| == |items|
    decreases |items|
  {
    if items != [] {
      TransitionsLength(OrdersAfter(orders, items[0].e, items[0].req), items[1..]);
    }
  }

  ghost predicate NeverNew(ts: seq<Transition>, k: Key) {
    forall j :: GrantFor(ts, j, k) ==> ts[j].kind != NewOrder
  }

  /** An order the gateway knows stays known, and is never accepted as new again. */
  lemma {:induction false} KnownStays(orders: Orders, items: seq<Item>, k: Key)
    requires k in orders
    ensures k in OrdersRun(orders, items)
    ensures NeverNew(TransitionsRun(orders, items), k)
    decreases |items|
  {
    if items != [] {
      var orders' := OrdersAfter(orders, items[0].e, items[0].req);
      KnownStays(orders', items[1..], k);
      var ts, rest := TransitionsRun(orders, items), TransitionsRun(orders', items[1..]);
      assert k in orders' && (GrantFor(ts, 0, k) ==> ts[0].kind != NewOrder);
      hide OrdersAfter, TransitionOf;
      forall j | GrantFor(ts, j, k)
        ensures ts[j].kind != NewOrder
      {
        if j > 0 {
          assert rest[j - 1] == ts[j];
          assert GrantFor(rest, j - 1, k);
        }
      }
    }
  }

  lemma {:induction false} UngrantedUnchanged(orders: Orders, items: seq<Item>, k: Key)
    requires !GrantWithin(TransitionsRun(orders, items), 0, |items|, k)
    ensures Lookup(OrdersRun(orders, items), k) == Lookup(orders, k)
    decreases |items|
  {
    if items != [] {
      var ts := TransitionsRun(orders, items);
      var orders' := OrdersAfter(orders, items[0].e, items[0].req);
      var rest := TransitionsRun(orders', items[1..]);
      TransitionsLength(orders', items[1..]);
      assert !GrantFor(ts, 0, k);
      GrantedInRest(ts, rest, 0, |rest|, k);
      UngrantedUnchanged(orders', items[1..], k);
    }
  }

  /** An accepted request has its shape and makes its order known; a new order was not known before and is the
      first accepted request of its key. */
  lemma {:induction false} GrantFacts(orders: Orders, items: seq<Item>, j: nat)
    requires j < |items| && |TransitionsRun(orders, items)| == |items| && TransitionsRun(orders, items)[j].Granted?
    ensures
      var ts := TransitionsRun(orders, items);
      var k := KeyFor(ts[j].fields);
      && GrantShape(ts[j]) && k in OrdersRun(orders, items)
      && (ts[j].kind == NewOrder ==> k !in orders && !GrantWithin(ts, 0, j, k))
    decreases |items|
  {
    var ts := TransitionsRun(orders, items);
    var k := KeyFor(ts[j].fields);
    var orders' := OrdersAfter(orders, items[0].e, items[0].req);
    var rest := TransitionsRun(orders', items[1..]);
    TransitionsLength(orders', items[1..]);
    assert ts == [ts[0]] + rest;
    if j == 0 {
      KnownStays(orders', items[1..], k);
    } else {
      assert ts[j] == rest[j - 1];
      GrantFacts(orders', items[1..], j - 1);
      if ts[j].kind == NewOrder {
        GrantedInRest(ts, rest, 0, j - 1, k);
        assert !GrantFor(ts, 0, k);
        assert forall i :: 0 <= i < j && GrantFor(ts, i, k) ==> 1 <= i < j;
      }
      hide GrantShape, TransitionOf;
    }
  }

  /** The last accepted request of an order decides what the gateway holds for it. */
  lemma {:induction false} LastGrantDecides(orders: Orders, items: seq<Item>, n: nat)
    requires LastGrant(TransitionsRun(orders, items), n)
    ensures
      var t := TransitionsRun(orders, items)[n];
      Lookup(OrdersRun(orders, items), KeyFor(t.fields)) == Some(t.snapshot)
    decreases |items|
  {
    var ts := TransitionsRun(orders, items);
    var k := KeyFor(ts[n].fields);
    var orders' := OrdersAfter(orders, items[0].e, items[0].req);
    var rest := TransitionsRun(orders', items[1..]);
    TransitionsLength(orders', items[1..]);
    assert ts == [ts[0]] + rest;
    GrantedInRest(ts, rest, n, |rest|, k);
    if n == 0 {
      assert Lookup(orders', k) == Some(ts[0].snapshot);
      UngrantedUnchanged(orders', items[1..], k);
    } else {
      assert ts[n] == rest[n - 1];
      LastGrantDecides(orders', items[1..], n - 1);
    }
  }

  // ---- executing them one after the other ----

  /** The bridge once the gateway has answered the whole backlog. */
  ghost predicate Prepared(b: Bridge, ts: seq<Transition>) {
    && GoodGateway(b.g) && Sound(b)
    && (forall j :: 0 <= j < |ts| && ts[j].Granted? ==>
          var k := KeyFor(ts[j].fields);
          && GrantShape(ts[j]) && k in b.g.orders
          && (ts[j].kind == NewOrder ==> k !in b.mappings && !GrantWithin(ts, 0, j, k)))
  }

  /** What n executions leave: orders without one of theirs among them are as they were, others at most worn. */
  ghost predicate Executed(b: Bridge, b': Bridge, ts: seq<Transition>, n: nat) {
    && GoodGateway(b'.g) && Sound(b')
    && b'.g.sessions.Keys == b.g.sessions.Keys && b'.views.Keys == b.views.Keys
    && (forall k: Key :: GrantWithin(ts, 0, n, k) || Same(b, b', k))
    && (forall k :: k in b.g.orders ==> k in b'.g.orders && Wears(b.g.orders[k], b'.g.orders[k]))
  }

  lemma GrantedGrows(ts: seq<Transition>, lo: int, n: int, k: Key)
    requires lo <= n
    ensures GrantWithin(ts, lo, n + 1, k) <==> GrantWithin(ts, lo, n, k) || GrantFor(ts, n, k)
  {
  }

  lemma ExecutedReady(b: Bridge, b': Bridge, ts: seq<Transition>, n: nat)
    requires Prepared(b, ts) && n < |ts| && Executed(b, b', ts, n) && ts[n].Granted?
    ensures Ready(b', ts[n])
  {
    var k := KeyFor(ts[n].fields);
    assert k in b.g.orders;
    OrdersGood(b'.g, k);
    if ts[n].kind == NewOrder {
      assert Same(b, b', k);
    }
    hide GatewayInv, GoodSessions, Sound, GrantShape, GoodOrder;
  }

  lemma SameTwice(a: Bridge, b: Bridge, c: Bridge, k: Key)
    requires Same(a, b, k) && Same(b, c, k)
    ensures Same(a, c, k)
  {
  }

  lemma ExecutedStep(b: Bridge, b': Bridge, store: Store, ts: seq<Transition>, n: nat)
    requires GoodStore(store) && Prepared(b, ts) && n < |ts| && Executed(b, b', ts, n)
    ensures Executed(b, ProcessTransition(b', store, ts[n]), ts, n + 1)
  {
    TransitionKeepsGateway(b', store, ts[n]);
    if ts[n].Granted? {
      ExecutedReady(b, b', ts, n);
      hide ProcessTransition, Prepared, Ready, Frames, Wears;
      TransitionFrames(b', store, ts[n]);
      GrantedStep(b, b', ProcessTransition(b', store, ts[n]), ts, n);
    } else {
      hide Same, Sound, GoodGateway, Prepared, Wears;
      forall k: Key
        ensures GrantWithin(ts, 0, n + 1, k) || Same(b, b', k)
      {
        GrantedGrows(ts, 0, n, k);
      }
    }
  }

  lemma GrantedStep(b: Bridge, b': Bridge, b'': Bridge, ts: seq<Transition>, n: nat)
    requires n < |ts| && Executed(b, b', ts, n) && ts[n].Granted? && GoodGateway(b''.g)
    requires
      var k := KeyFor(ts[n].fields);
      && Frames(b', b'', k)
      && (k in b'.g.orders ==> k in b''.g.orders && Wears(b'.g.orders[k], b''.g.orders[k]))
    ensures Executed(b, b'', ts, n + 1)
  {
    hide Same, Sound, GoodGateway, GrantFor, GrantWithin;
    var k0 := KeyFor(ts[n].fields);
    forall k: Key
      ensures GrantWithin(ts, 0, n + 1, k) || Same(b, b'', k)
    {
      GrantedGrows(ts, 0, n, k);
      GrantForIs(ts, n, k);
      if k != k0 && !GrantWithin(ts, 0, n, k) {
        SameTwice(b, b', b'', k);
      }
    }
    forall k | k in b.g.orders
      ensures k in b''.g.orders && Wears(b.g.orders[k], b''.g.orders[k])
    {
      if k != k0 {
        SameOrder(b', b'', k);
      }
    }
  }

  lemma GrantForIs(ts: seq<Transition>, n: nat, k: Key)
    requires n < |ts| && ts[n].Granted?
    ensures GrantFor(ts, n, k) <==> KeyFor(ts[n].fields) == k
  {
  }

  lemma SameOrder(b: Bridge, b': Bridge, k: Key)
    requires Same(b, b', k)
    ensures k in b'.g.orders <==> k in b.g.orders
    ensures k in b.g.orders ==> b'.g.orders[k] == b.g.orders[k]
  {
  }

  lemma {:induction false} EveryPrefixExecuted(b: Bridge, store: Store, ts: seq<Transition>, n: nat)
    requires GoodStore(store) && Prepared(b, ts) && n <= |ts|
    ensures Executed(b, ProcessAll(b, store, ts[..n]), ts, n)
  {
    if n == 0 {
      assert ts[..0] == [];
      assert ProcessAll(b, store, []) == b;
      hide GoodGateway, Sound, ProcessAll, GrantShape;
    } else {
      assert ts[..n][..n - 1] == ts[..n - 1];
      hide Executed, Prepared, ProcessTransition;
      EveryPrefixExecuted(b, store, ts, n - 1);
      ExecutedStep(b, ProcessAll(b, store, ts[..n - 1]), store, ts, n - 1);
    }
  }

  /** Executing requests of other orders changes nothing about this one. */
  lemma {:induction false} OthersLeaveAlone(b: Bridge, store: Store, ts: seq<Transition>, lo: nat, hi: nat, k: Key)
    requires GoodStore(store) && Prepared(b, ts) && lo <= hi <= |ts| && !GrantWithin(ts, lo, hi, k)
    ensures Same(ProcessAll(b, store, ts[..lo]), ProcessAll(b, store, ts[..hi]), k)
  {
    if lo < hi {
      assert ts[..hi][..hi - 1] == ts[..hi - 1];
      hide Same, Executed, Prepared, ProcessTransition, Ready, GrantFor, GrantWithin;
      GrantedGrows(ts, lo, hi - 1, k);
      OthersLeaveAlone(b, store, ts, lo, hi - 1, k);
      var before := ProcessAll(b, store, ts[..hi - 1]);
      EveryPrefixExecuted(b, store, ts, hi - 1);
      if ts[hi - 1].Granted? {
        GrantForIs(ts, hi - 1, k);
        ExecutedReady(b, before, ts, hi - 1);
      }
      StepLeavesAlone(before, store, ts[hi - 1], k);
      SameTwice(ProcessAll(b, store, ts[..lo]), before, ProcessAll(b, store, ts[..hi]), k);
    } else {
      hide Prepared, ProcessAll;
    }
  }

  lemma StepLeavesAlone(b: Bridge, store: Store, t: Transition, k: Key)
    requires GoodStore(store) && (t.Granted? ==> Ready(b, t) && KeyFor(t.fields) != k)
    ensures Same(b, ProcessTransition(b, store, t), k)
  {
    if t.Granted? {
      hide Ready, ProcessTransition, Same;
      TransitionFrames(b, store, t);
    }
  }

  lemma LastGrantWorn(b: Bridge, b': Bridge, ts: seq<Transition>, n: nat)
    requires Prepared(b, ts) && LastGrant(ts, n) && Executed(b, b', ts, n)
    requires Lookup(b.g.orders, KeyFor(ts[n].fields)) == Some(ts[n].snapshot)
    ensures
      var k := KeyFor(ts[n].fields);
      Ready(b', ts[n]) && k in b'.g.orders && Wears(ts[n].snapshot, b'.g.orders[k]) && GrantShape(ts[n])
  {
    ExecutedReady(b, b', ts, n);
    hide GoodGateway, Sound, Same, GrantShape, GrantWithin;
  }

  /** After executing everything, an order is linked exactly as its last accepted request left it. */
  lemma LastGrantLinksIff(b: Bridge, store: Store, ts: seq<Transition>, n: nat)
    requires GoodStore(store) && Prepared(b, ts) && LastGrant(ts, n)
    requires Lookup(b.g.orders, KeyFor(ts[n].fields)) == Some(ts[n].snapshot)
    ensures KeyFor(ts[n].fields) in ProcessAll(b, store, ts[..n]).g.orders
    ensures Linked(ProcessAll(b, store, ts), KeyFor(ts[n].fields)) <==>
            LinksAt(ProcessAll(b, store, ts[..n]), store, ts[n])
  {
    var k, before := KeyFor(ts[n].fields), ProcessAll(b, store, ts[..n]);
    assert ts[..n + 1][..n] == ts[..n] && ts[..|ts|] == ts;
    hide Executed, Prepared, Ready, GrantShape, Same, Linked, LinksAt, ProcessTransition, GrantWithin, Wears;
    EveryPrefixExecuted(b, store, ts, n);
    LastGrantWorn(b, before, ts, n);
    OthersLeaveAlone(b, store, ts, n + 1, |ts|, k);
    TransitionLinksIff(before, store, ts[n]);
    SameLinked(ProcessAll(b, store, ts[..n + 1]), ProcessAll(b, store, ts), k);
  }

  // ---- a whole drain ----

  ghost predicate AllLinked(b: Bridge) {
    Sound(b) && forall k: Key :: Linked(b, k)
  }

  datatype System = System(b: Bridge, store: Store)

  ghost predicate Running(s: System) {
    GoodGateway(s.b.g) && GoodStore(s.store)
  }

  ghost predicate SystemInv(s: System) {
    Running(s) && AllLinked(s.b)
  }

  lemma SoundAnyGateway(b: Bridge, g: Gateway)
    requires Sound(b)
    ensures Sound(b.(g := g))
  {
    var b' := b.(g := g);
    forall e, id | e in b'.views && id in b'.views[e].own
      ensures Mapped(b', e, id)
    {
      assert Mapped(b, e, id);
      var k :| k in b.mappings && k.engineId == e && b.mappings[k].syntheticId == id;
      assert k in b'.mappings;
    }
    hide Mapped, GoodView;
  }

  lemma DrainPrepares(s: System, order: seq<nat>)
    requires SystemInv(s) && Distinct(order)
    ensures
      var d := DrainAll(s.b.g, order);
      && Prepared(s.b.(g := d.g), d.transitions) && d.g.sessions.Keys == s.b.g.sessions.Keys
      && (forall n :: LastGrant(d.transitions, n) ==>
            Lookup(d.g.orders, KeyFor(d.transitions[n].fields)) == Some(d.transitions[n].snapshot))
      && (forall k: Key :: GrantWithin(d.transitions, 0, |d.transitions|, k) || Same(s.b, s.b.(g := d.g), k))
  {
    var d := DrainAll(s.b.g, order);
    var orders, items, ts := s.b.g.orders, Backlog(s.b.g, order), d.transitions;
    DrainAllMeaning(s.b.g, order);
    DrainAllKeeps(s.b.g, order);
    SoundAnyGateway(s.b, d.g);
    TransitionsLength(orders, items);
    hide GatewayInv, GoodSessions, Distinct, DrainAll, Backlog, OrdersRun, TransitionsRun, GrantWithin, GrantShape,
      Sound;
    forall j | 0 <= j < |ts| && ts[j].Granted?
      ensures
        var k := KeyFor(ts[j].fields);
        && GrantShape(ts[j]) && k in d.g.orders
        && (ts[j].kind == NewOrder ==> k !in s.b.mappings && !GrantWithin(ts, 0, j, k))
    {
      GrantFacts(orders, items, j);
      assert Linked(s.b, KeyFor(ts[j].fields));
    }
    forall n | LastGrant(ts, n)
      ensures Lookup(d.g.orders, KeyFor(ts[n].fields)) == Some(ts[n].snapshot)
    {
      LastGrantDecides(orders, items, n);
    }
    forall k: Key
      ensures GrantWithin(ts, 0, |ts|, k) || Same(s.b, s.b.(g := d.g), k)
    {
      if !GrantWithin(ts, 0, |ts|, k) {
        UngrantedUnchanged(orders, items, k);
      }
    }
  }

  /** The bridge after the first n transitions of a drain. */
  ghost function MidDrain(s: System, order: seq<nat>, n: nat): Bridge
    requires Running(s) && n <= |DrainAll(s.b.g, order).transitions|
  {
    var d := DrainAll(s.b.g, order);
    ProcessAll(s.b.(g := d.g), s.store, d.transitions[..n])
  }

  /** The n-th transition, when its turn comes, links its order. */
  ghost predicate LinksInTurn(s: System, order: seq<nat>, n: nat)
    requires Running(s) && n < |DrainAll(s.b.g, order).transitions|
  {
    var b, t := MidDrain(s, order, n), DrainAll(s.b.g, order).transitions[n];
    KeyFor(t.fields) in b.g.orders && LinksAt(b, s.store, t)
  }

  /** After any drain, whatever else it holds, an order that had requests accepted is linked if and only if the
      last of them links it in its turn. */
  lemma AnyDrainLinksIff(s: System, order: seq<nat>, n: nat)
    requires SystemInv(s) && Distinct(order) && LastGrant(DrainAll(s.b.g, order).transitions, n)
    ensures
      var t := DrainAll(s.b.g, order).transitions[n];
      Linked(Drain(s.b, s.store, order), KeyFor(t.fields)) <==> LinksInTurn(s, order, n)
  {
    var d := DrainAll(s.b.g, order);
    DrainPrepares(s, order);
    hide Prepared, DrainAll, LinksAt, Linked, ProcessAll, GrantWithin;
    LastGrantLinksIff(s.b.(g := d.g), s.store, d.transitions, n);
  }

  /** An order without accepted requests stays linked. */
  lemma UngrantedLinked(s: System, order: seq<nat>, k: Key)
    requires SystemInv(s) && Distinct(order)
    requires
      var ts := DrainAll(s.b.g, order).transitions;
      !GrantWithin(ts, 0, |ts|, k)
    ensures Linked(Drain(s.b, s.store, order), k)
  {
    var d := DrainAll(s.b.g, order);
    var b, ts := s.b.(g := d.g), d.transitions;
    DrainPrepares(s, order);
    assert ts[..|ts|] == ts;
    assert Linked(s.b, k);
    hide Prepared, DrainAll, Linked, ProcessAll, GrantWithin, Same;
    EveryPrefixExecuted(b, s.store, ts, |ts|);
    SameLinked(s.b, b, k);
    SameLinked(b, ProcessAll(b, s.store, ts), k);
  }

  lemma DrainSound(s: System, order: seq<nat>)
    requires SystemInv(s) && Distinct(order)
    ensures Sound(Drain(s.b, s.store, order))
  {
    var d := DrainAll(s.b.g, order);
    DrainPrepares(s, order);
    assert d.transitions[..|d.transitions|] == d.transitions;
    hide Prepared, DrainAll, ProcessAll, Sound;
    EveryPrefixExecuted(s.b.(g := d.g), s.store, d.transitions, |d.transitions|);
  }

  lemma {:induction false} LastGrantExists(ts: seq<Transition>, lo: nat, k: Key) returns (n: nat)
    requires GrantWithin(ts, lo, |ts|, k)
    ensures LastGrant(ts, n) && KeyFor(ts[n].fields) == k
    decreases |ts| - lo
  {
    var j :| lo <= j < |ts| && GrantFor(ts, j, k);
    n := j;
    if GrantWithin(ts, j + 1, |ts|, k) {
      n := LastGrantExists(ts, j + 1, k);
    }
  }

  /** Every order that has a request accepted is linked by its last one. */
  ghost predicate LinkingDrain(s: System, order: seq<nat>)
    requires Running(s)
  {
    var ts := DrainAll(s.b.g, order).transitions;
    forall n :: LastGrant(ts, n) ==> LinksInTurn(s, order, n)
  }

  /** A drain leaves all orders linked if and only if it is a linking one. */
  lemma DrainLinksIff(s: System, order: seq<nat>)
    requires SystemInv(s) && Distinct(order)
    ensures AllLinked(Drain(s.b, s.store, order)) <==> LinkingDrain(s, order)
  {
    var ts, b' := DrainAll(s.b.g, order).transitions, Drain(s.b, s.store, order);
    DrainSound(s, order);
    hide Sound, Linked, Drain, DrainAll, LinksInTurn, GoodGateway, GoodStore, Distinct;
    forall n | LastGrant(ts, n)
      ensures Linked(b', KeyFor(ts[n].fields)) <==> LinksInTurn(s, order, n)
    {
      AnyDrainLinksIff(s, order, n);
    }
    forall k: Key
      ensures Linked(b', k) || exists n :: LastGrant(ts, n) && KeyFor(ts[n].fields) == k
    {
      if GrantWithin(ts, 0, |ts|, k) {
        var n := LastGrantExists(ts, 0, k);
      } else {
        UngrantedLinked(s, order, k);
      }
    }
  }

  // ---- everything else that happens ----

  /** Clients send, flush and read; someone may answer a request or emit a fill past the bridge; the market
      moves; from time to time the bridge drains. */
  datatype SystemStep =
    | Client(step: Step)
    | Market(event: Event)
    | DrainNow

  ghost function SystemNext(s: System, step: SystemStep, order: seq<nat>): System
    requires Running(s)
  {
    match step
    case Client(c) => s.(b := s.b.(g := Advance(s.b.g, c)))
    case Market(e) => s.(store := StoreApply(s.store, e))
    case DrainNow => s.(b := Drain(s.b, s.store, order))
  }

  /** A request answered past the bridge: harmless when refused, or a modify that changes none of the terms. */
  predicate HarmlessAnswer(orders: Orders, e: nat, req: OrderRequest) {
    var order := Lookup(orders, KeyOf(e, req));
    || Verdict(order, req).Some?
    || (req.kind == ModifyOrder && order.Some? && order.value.side == req.fields.side
        && order.value.price == req.fields.price && order.value.remaining == req.fields.size)
  }

  /** What keeps every order linked, step by step. */
  ghost predicate KeepsLinks(s: System, step: SystemStep, order: seq<nat>)
    requires Running(s)
  {
    match step
    case Client(c) =>
      (match c
       case ServeNext(e) => Waiting(s.b.g, e) ==> HarmlessAnswer(s.b.g.orders, e, NextRequest(s.b.g, e))
       case EmitFill(k, _, size, _) => !CanFill(s.b.g, k, size)
       case _ => true)
    case Market(_) => true
    case DrainNow => LinkingDrain(s, order)
  }

  /** When only the gateway's record of order k may have changed, only its link is in question. */
  lemma OnlyOneOrder(b: Bridge, g: Gateway, k: Key)
    requires AllLinked(b) && forall j :: j != k ==> Lookup(g.orders, j) == Lookup(b.g.orders, j)
    ensures AllLinked(b.(g := g)) <==> Linked(b.(g := g), k)
  {
    SoundAnyGateway(b, g);
    forall j | j != k
      ensures Linked(b.(g := g), j)
    {
      assert Linked(b, j);
      SameLinked(b, b.(g := g), j);
    }
    hide Sound, Linked;
  }

  lemma AnswerLinksIff(b: Bridge, e: nat)
    requires GoodGateway(b.g) && AllLinked(b) && Waiting(b.g, e)
    ensures AllLinked(b.(g := Serve(b.g, e))) <==> HarmlessAnswer(b.g.orders, e, NextRequest(b.g, e))
  {
    var req := NextRequest(b.g, e);
    var k, g := KeyOf(e, req), Serve(b.g, e);
    ServeKeepsSessions(b.g, e);
    assert Linked(b, k);
    hide Serve, GoodGateway, Sound;
    OnlyOneOrder(b, g, k);
    assert Open(b.g.orders, k) <==> k in b.mappings;
    hide AllLinked;
    if Verdict(Lookup(b.g.orders, k), req).Some? {
      assert g.orders == b.g.orders;
    } else {
      assert g.orders == b.g.orders[k := Accept(Lookup(b.g.orders, k), req)];
    }
  }

  lemma EmitLinksIff(b: Bridge, k: Key, price: int, size: nat, timestamp: int)
    requires GoodGateway(b.g) && AllLinked(b)
    ensures AllLinked(b.(g := Emit(b.g, k, price, size, timestamp))) <==> !CanFill(b.g, k, size)
  {
    if CanFill(b.g, k, size) {
      OrdersGood(b.g, k);
      var g := Emit(b.g, k, price, size, timestamp);
      assert Linked(b, k);
      hide GatewayInv, GoodSessions, Sound;
      assert g.orders == b.g.orders[k := FillOrder(b.g.orders[k], size, timestamp)];
      OnlyOneOrder(b, g, k);
    } else {
      hide AllLinked, GoodGateway;
    }
  }

  lemma ClientLinksIff(s: System, c: Step, order: seq<nat>)
    requires SystemInv(s)
    ensures AllLinked(SystemNext(s, Client(c), order).b) <==> KeepsLinks(s, Client(c), order)
  {
    match c
    case ServeNext(e) =>
      if Waiting(s.b.g, e) {
        AnswerLinksIff(s.b, e);
      }
      hide AllLinked, GoodGateway, HarmlessAnswer, Serve;
    case EmitFill(k, price, size, timestamp) =>
      EmitLinksIff(s.b, k, price, size, timestamp);
      hide AllLinked, GoodGateway, Emit;
    case _ =>
      var g := Advance(s.b.g, c);
      assert g.orders == s.b.g.orders;
      OnlyOneOrder(s.b, g, Key(0, 0));
      assert Linked(s.b, Key(0, 0));
      SameLinked(s.b, s.b.(g := g), Key(0, 0));
      hide AllLinked, GoodGateway, Advance, Linked;
  }

  /** From a linked state, any step keeps every order linked if and only if the stated condition holds. */
  lemma StepLinksIff(s: System, step: SystemStep, order: seq<nat>)
    requires SystemInv(s) && Distinct(order)
    ensures AllLinked(SystemNext(s, step, order).b) <==> KeepsLinks(s, step, order)
  {
    match step
    case Client(c) => ClientLinksIff(s, c, order);
    case Market(_) =>
    case DrainNow => DrainLinksIff(s, order);
  }

  lemma {:induction false} ProcessAllKeepsGateway(b: Bridge, store: Store, ts: seq<Transition>)
    requires GoodStore(store) && GoodGateway(b.g)
    ensures GoodGateway(ProcessAll(b, store, ts).g)
  {
    if ts != [] {
      hide GoodGateway, ProcessTransition;
      ProcessAllKeepsGateway(b, store, ts[..|ts| - 1]);
      TransitionKeepsGateway(ProcessAll(b, store, ts[..|ts| - 1]), store, ts[|ts| - 1]);
    }
  }

  lemma NextRunning(s: System, step: SystemStep, order: seq<nat>)
    requires Running(s)
    ensures Running(SystemNext(s, step, order))
  {
    match step
    case Client(c) =>
      AdvanceKeeps(s.b.g, c);
      hide GatewayInv, GoodSessions, Advance, GoodStore;
    case Market(e) =>
      StoreApplyKeepsGood(s.store, e);
      hide GoodGateway, GoodStore, StoreApply;
    case DrainNow =>
      var d := DrainAll(s.b.g, order);
      DrainAllKeeps(s.b.g, order);
      assert GoodGateway(d.g);
      hide GoodGateway, GoodStore, ProcessAll, DrainAll;
      ProcessAllKeepsGateway(s.b.(g := d.g), s.store, d.transitions);
  }

  // ---- runs ----

  /** Nothing sent, nothing mapped, and fresh views. */
  ghost predicate SystemOpening(s: System) {
    && Opening(s.b.g) && s.b.mappings == map[] && s.store == map[]
    && forall e :: e in s.b.views ==> s.b.views[e] == View(1, map[], map[])
  }

  lemma OpeningLinked(s: System)
    requires SystemOpening(s)
    ensures SystemInv(s)
  {
    OpeningGood(s.b.g);
    hide GoodSessions, GatewayInv;
  }

  ghost function SystemRun(start: System, steps: seq<SystemStep>, order: seq<nat>): (s: System)
    requires SystemOpening(start)
    ensures Running(s)
  {
    OpeningLinked(start);
    if steps == [] then start
    else
      var before := SystemRun(start, steps[..|steps| - 1], order);
      NextRunning(before, steps[|steps| - 1], order);
      SystemNext(before, steps[|steps| - 1], order)
  }

  ghost predicate LinkedAfter(start: System, steps: seq<SystemStep>, order: seq<nat>)
    requires SystemOpening(start)
  {
    AllLinked(SystemRun(start, steps, order).b)
  }

  lemma LinkedOneMore(start: System, steps: seq<SystemStep>, order: seq<nat>, n: nat)
    requires SystemOpening(start) && Distinct(order) && n < |steps| && LinkedAfter(start, steps[..n], order)
    ensures LinkedAfter(start, steps[..n + 1], order) <==>
            KeepsLinks(SystemRun(start, steps[..n], order), steps[n], order)
  {
    assert steps[..n + 1][..n] == steps[..n];
    hide AllLinked, KeepsLinks, SystemNext, SystemOpening, Distinct, Running;
    StepLinksIff(SystemRun(start, steps[..n], order), steps[n], order);
  }

  lemma {:induction false} LinkedUpTo(start: System, steps: seq<SystemStep>, order: seq<nat>, n: nat)
    requires SystemOpening(start) && Distinct(order) && n <= |steps|
    requires forall i :: 0 <= i < n ==> KeepsLinks(SystemRun(start, steps[..i], order), steps[i], order)
    ensures LinkedAfter(start, steps[..n], order)
  {
    if n == 0 {
      assert steps[..0] == [];
      OpeningLinked(start);
      hide KeepsLinks, AllLinked;
    } else {
      hide LinkedAfter, KeepsLinks, SystemOpening, Distinct;
      LinkedUpTo(start, steps, order, n - 1);
      LinkedOneMore(start, steps, order, n - 1);
    }
  }

  /** Over any run: every order is linked after every prefix if and only if every step meets its condition. Linked
      means that a mapping exists exactly for the open gateway orders, with the same remainder and terms,
      and names a live own order with those terms; and no two mappings share a synthetic order and no own
      order is without a mapping. */
  lemma EveryPrefixLinkedIff(start: System, steps: seq<SystemStep>, order: seq<nat>)
    requires SystemOpening(start) && Distinct(order)
    ensures (forall n :: 0 <= n <= |steps| ==> LinkedAfter(start, steps[..n], order)) <==>
            (forall n :: 0 <= n < |steps| ==> KeepsLinks(SystemRun(start, steps[..n], order), steps[n], order))
  {
    hide LinkedAfter, KeepsLinks, SystemOpening, SystemRun, Distinct;
    if forall n :: 0 <= n < |steps| ==> KeepsLinks(SystemRun(start, steps[..n], order), steps[n], order) {
      forall n | 0 <= n <= |steps|
        ensures LinkedAfter(start, steps[..n], order)
      {
        LinkedUpTo(start, steps, order, n);
      }
    } else {
      var n :| 0 <= n < |steps| && !KeepsLinks(SystemRun(start, steps[..n], order), steps[n], order);
      if LinkedAfter(start, steps[..n], order) {
        LinkedOneMore(start, steps, order, n);
      }
      assert !LinkedAfter(start, steps[..n], order) || !LinkedAfter(start, steps[..n + 1], order);
    }
  }
}
