/** Exactly when the store of historical books agrees with the book manager. */
module StoreAgreement {
  import opened Domain
  import opened RestingOrders
  import opened LimitOrderBooks
  import opened BookManagers
  import opened HistoricalLobs
  import opened HistoricalLobStores

  /** Same instruments, and the same orders in each; levels and counts then follow. */
  ghost predicate Agrees(store: Store, books: Books) {
    && store.Keys == books.Keys
    && (forall i :: i in books ==> Plain(store[i]) == books[i].orders)
    && Filed(store)
  }

  /** What of an event keeps the two in agreement. With an instrument: an add must not move an order away
      from another instrument, a modify must address an order of this instrument. Without one: the store
      ignores the event, so the manager must not change any order either. */
  ghost predicate KeepsAgreement(books: Books, e: Event) {
    var home := Home(books, e.orderId);
    if e.instrumentId != 0 then
      && (e.action == Add && ValidResting(e) ==> home in {0, e.instrumentId})
      && (e.action == Modify && ValidResting(e) ==> home == e.instrumentId)
    else if e.action == Clear then books == map[]
    else
      || home == 0
      || e.action in {Trade, Fill, NoAction}
      || (e.action in {Add, Modify} && !ValidResting(e))
      || (e.action in {Add, Modify} && home in books && e.orderId in books[home].orders
          && books[home].orders[e.orderId] == RestingOf(e))
  }

  lemma TouchAgrees(store: Store, books: Books, e: Event)
    requires Agrees(store, books) && e.instrumentId != 0
    requires e.action == Modify && ValidResting(e) ==> Holds(books, e.instrumentId, e.orderId)
    ensures Agrees(StoreApply(store, e), Touch(books, e))
  {
    StoreApplyKeepsFiled(store, e);
    var i, h := e.instrumentId, TableOf(store, e.instrumentId);
    assert Plain(h) == BookOf(books, i).orders;
    HistMatchesBook(h, BookOf(books, i), e);
    hide HistApply, BookApply, Filed;
    forall j | j in Touch(books, e)
      ensures Plain(StoreApply(store, e)[j]) == Touch(books, e)[j].orders
    {
      assert j != i ==> j in books;
    }
  }

  lemma HistMatchesBook(h: HistOrders, b: Book, e: Event)
    requires Plain(h) == b.orders && e.instrumentId != 0
    requires forall o :: o in h ==> h[o].instrumentId == e.instrumentId
    requires e.action == Modify && ValidResting(e) ==> e.orderId in h
    ensures Plain(HistApply(h, e)) == BookApply(b, e).orders
  {
    match e.action
    case Cancel =>
      if e.orderId in h {
        PlainReduce(h, e.orderId, CancelAmount(e, PlainOrder(h[e.orderId])));
      }
    case Clear => assert KeepOthers(h, e.instrumentId) == map[];
    case _ => PlainFacts(h, e.orderId, HistOf(e));
  }

  /** A step keeps the store and the manager in agreement if and only if the event qualifies. */
  lemma AgreementIff(store: Store, m: Manager, e: Event)
    requires GoodBooks(m.books) && Agrees(store, m.books)
    ensures Agrees(StoreApply(store, e), ManagerApply(m, e).books) <==> KeepsAgreement(m.books, e)
  {
    HomeHolds(m.books, e.orderId);
    if e.instrumentId != 0 {
      NamedAgreementIff(store, m.books, e);
    } else {
      UnnamedAgreementIff(store, m, e);
    }
  }

  lemma NamedAgreementIff(store: Store, books: Books, e: Event)
    requires GoodBooks(books) && Agrees(store, books) && e.instrumentId != 0
    ensures Agrees(StoreApply(store, e), ApplyRouted(books, e)) <==> KeepsAgreement(books, e)
  {
    HomeHolds(books, e.orderId);
    var home, i, o := Home(books, e.orderId), e.instrumentId, e.orderId;
    if KeepsAgreement(books, e) {
      assert Vacate(books, e) == books;
      TouchAgrees(store, books, e);
    } else if home != 0 && home != i {
      MoveCancelsExactly(books, e);
      assert o in store[home] && o in StoreApply(store, e)[home];
      assert o !in ApplyRouted(books, e)[home].orders;
    } else {
      assert o !in TableOf(store, i) by {
        assert i in books ==> !Holds(books, i, o);
      }
      assert o !in StoreApply(store, e)[i] && o in ApplyRouted(books, e)[i].orders;
    }
  }

  lemma UnnamedAgreementIff(store: Store, m: Manager, e: Event)
    requires GoodBooks(m.books) && Agrees(store, m.books) && e.instrumentId == 0
    ensures Agrees(StoreApply(store, e), ManagerApply(m, e).books) <==> KeepsAgreement(m.books, e)
  {
    HomeHolds(m.books, e.orderId);
    var books, home, o := m.books, Home(m.books, e.orderId), e.orderId;
    var books' := ManagerApply(m, e).books;
    if home == 0 {
      assert books' == books;
      assert e.action == Clear && books != map[] ==> StoreApply(store, e).Keys != books'.Keys;
    } else {
      var routed := e.(instrumentId := home);
      assert Vacate(books, routed) == books;
      assert books' == books[home := BookApply(books[home], routed)];
      if e.action == Clear {
        assert home in books' && home !in StoreApply(store, e);
      } else {
        assert StoreApply(store, e) == store;
        SameOrdersIff(books[home], routed);
        OnlyHomeMatters(store, books, books', home);
      }
    }
  }

  lemma OnlyHomeMatters(store: Store, books: Books, books': Books, home: nat)
    requires Agrees(store, books) && home in books && home in books'
    requires books' == books[home := books'[home]]
    ensures Agrees(store, books') <==> books'[home].orders == books[home].orders
  {
  }

  /** When an event that is not a clear leaves the orders of the book that holds its order unchanged. */
  lemma SameOrdersIff(b: Book, e: Event)
    requires GoodBook(b) && e.orderId in b.orders && e.action != Clear
    ensures BookApply(b, e).orders == b.orders <==>
      || e.action in {Trade, Fill, NoAction}
      || (e.action in {Add, Modify} && (!ValidResting(e) || b.orders[e.orderId] == RestingOf(e)))
  {
    var o := e.orderId;
    match e.action
    case Add | Modify =>
      if ValidResting(e) && b.orders[o] == RestingOf(e) {
        assert b.orders[o := RestingOf(e)] == b.orders;
      } else if ValidResting(e) {
        assert b.orders[o := RestingOf(e)][o] != b.orders[o];
      }
    case Cancel =>
      var r := BookApply(b, e).orders;
      assert o !in r || r[o] != b.orders[o];
    case _ =>
  }

  // ---- runs ----

  function StoreRun(events: seq<Event>): Store {
    if events == [] then map[] else StoreApply(StoreRun(events[..|events| - 1]), events[|events| - 1])
  }

  ghost predicate AgreeAfter(events: seq<Event>) {
    Agrees(StoreRun(events), ManagerRun(EMPTY_MANAGER, events).books)
  }

  /** Store and manager agree after every prefix of a stream if and only if every event qualifies. */
  lemma StoreAgreesIff(events: seq<Event>)
    ensures (forall k :: 0 <= k <= |events| ==> AgreeAfter(events[..k])) <==>
            (forall k :: 0 <= k < |events| ==> KeepsAgreement(ManagerRun(EMPTY_MANAGER, events[..k]).books, events[k]))
  {
    hide AgreeAfter, KeepsAgreement, ManagerRun;
    if forall k :: 0 <= k < |events| ==> KeepsAgreement(ManagerRun(EMPTY_MANAGER, events[..k]).books, events[k]) {
      forall k | 0 <= k <= |events|
        ensures AgreeAfter(events[..k])
      {
        AgreeUpTo(events, k);
      }
    } else {
      var k :| 0 <= k < |events| && !KeepsAgreement(ManagerRun(EMPTY_MANAGER, events[..k]).books, events[k]);
      assert events[..k] + [events[k]] == events[..k + 1];
      if AgreeAfter(events[..k]) {
        AgreeStep(events[..k], events[k]);
      }
      assert !AgreeAfter(events[..k]) || !AgreeAfter(events[..k + 1]);
    }
  }

  lemma AgreeStep(events: seq<Event>, e: Event)
    requires AgreeAfter(events)
    ensures AgreeAfter(events + [e]) <==> KeepsAgreement(ManagerRun(EMPTY_MANAGER, events).books, e)
  {
    assert (events + [e])[..|events|] == events;
    ManagerRunGood(events);
    AgreementIff(StoreRun(events), ManagerRun(EMPTY_MANAGER, events), e);
    hide Agrees, KeepsAgreement;
  }

  lemma {:induction false} AgreeUpTo(events: seq<Event>, n: nat)
    requires n <= |events|
    requires forall k :: 0 <= k < |events| ==> KeepsAgreement(ManagerRun(EMPTY_MANAGER, events[..k]).books, events[k])
    ensures AgreeAfter(events[..n])
  {
    if n == 0 {
      assert events[..0] == [] && StoreRun([]) == map[];
      hide KeepsAgreement;
    } else {
      hide *;
      AgreeUpTo(events, n - 1);
      AgreeStep(events[..n - 1], events[n - 1]);
      assert events[..n - 1] + [events[n - 1]] == events[..n];
    }
  }

  /** Agreement on orders is agreement on every level and on the resting counts. */
  lemma AgreementOnLevels(store: Store, books: Books, i: nat, side: Side, price: int)
    requires Agrees(store, books) && i in books
    ensures Volume(Plain(store[i]), side, price) == Volume(books[i].orders, side, price)
    ensures |store[i]| == |books[i].orders|
  {
    assert |Plain(store[i]).Keys| == |store[i].Keys|;
  }
}
