/** All books of a run. The simple form keeps the books only and asks which of them holds an order;
    the class answers that question with an index it maintains beside the books. */
module BookManagers {
  import opened Domain
  import opened Ladders
  import opened RestingOrders
  import opened LimitOrderBooks
  import opened BookSnapshots

  type Books = map<nat, Book>

  datatype Manager = Manager(books: Books, processed: nat, unresolved: nat)

  const EMPTY_MANAGER: Manager := Manager(map[], 0, 0)

  ghost predicate Holds(books: Books, i: nat, o: nat) {
    i in books && o in books[i].orders
  }

  /** Instrument 0 means "unknown": it never has a book, and no order rests in two books. */
  ghost predicate GoodBooks(books: Books) {
    && 0 !in books
    && (forall i :: i in books ==> GoodBook(books[i]))
    && (forall i, j, o :: Holds(books, i, o) && Holds(books, j, o) ==> i == j)
  }

  /** The instrument whose book holds the order, 0 when it rests nowhere. */
  ghost function Home(books: Books, o: nat): nat {
    if exists i :: Holds(books, i, o) then
      var i: nat :| Holds(books, i, o); i
    else 0
  }

  lemma HomeIs(books: Books, i: nat, o: nat)
    requires GoodBooks(books) && Holds(books, i, o)
    ensures Home(books, o) == i
  {
  }

  lemma HomeHolds(books: Books, o: nat)
    requires GoodBooks(books)
    ensures Home(books, o) != 0 <==> exists i :: Holds(books, i, o)
    ensures Home(books, o) != 0 ==> Holds(books, Home(books, o), o)
  {
  }

  ghost function Resolve(books: Books, e: Event): nat {
    if e.instrumentId != 0 then e.instrumentId else Home(books, e.orderId)
  }

  /** The event puts an order into a book, replacing whatever it was before. */
  predicate Places(e: Event) {
    (e.action == Add || e.action == Modify) && ValidResting(e)
  }

  function FullCancel(e: Event, i: nat): Event {
    e.(action := Cancel, instrumentId := i, size := 0)
  }

  function BookOf(books: Books, i: nat): Book {
    if i in books then books[i] else EMPTY_BOOK
  }

  /** Let one event act on the book it names, and on no other. */
  function Touch(books: Books, e: Event): Books {
    books[e.instrumentId := BookApply(BookOf(books, e.instrumentId), e)]
  }

  /** An event with a known instrument: an order placed elsewhere first leaves its old book. */
  ghost function ApplyRouted(books: Books, e: Event): Books {
    Touch(Vacate(books, e), e)
  }

  ghost function Vacate(books: Books, e: Event): Books {
    var home := Home(books, e.orderId);
    if Places(e) && home != 0 && home != e.instrumentId then Touch(books, FullCancel(e, home)) else books
  }

  ghost function ManagerApply(m: Manager, e: Event): Manager {
    var i := Resolve(m.books, e);
    if i == 0 then m.(processed := m.processed + 1, unresolved := m.unresolved + 1)
    else Manager(ApplyRouted(m.books, e.(instrumentId := i)), m.processed + 1, m.unresolved)
  }

  ghost function ManagerRun(m: Manager, events: seq<Event>): Manager {
    if events == [] then m
    else ManagerApply(ManagerRun(m, events[..|events| - 1]), events[|events| - 1])
  }

  lemma BookOfGood(books: Books, i: nat)
    requires GoodBooks(books)
    ensures GoodBook(BookOf(books, i))
  {
  }

  /** Which orders the touched book holds afterwards. */
  lemma TouchHolds(books: Books, e: Event, i: nat, o: nat)
    requires GoodBooks(books)
    ensures Holds(Touch(books, e), i, o) ==> Holds(books, i, o) || (i == e.instrumentId && o == e.orderId && Places(e))
    ensures i != e.instrumentId ==> (Holds(Touch(books, e), i, o) <==> Holds(books, i, o))
    ensures o != e.orderId && e.action != Clear ==> (Holds(Touch(books, e), i, o) <==> Holds(books, i, o))
    ensures i == e.instrumentId && e.action == Clear ==> !Holds(Touch(books, e), i, o)
    ensures i == e.instrumentId && o == e.orderId && Places(e) ==> Holds(Touch(books, e), i, o)
    ensures i == e.instrumentId && o == e.orderId && e.action == Cancel && e.size == 0 ==> !Holds(Touch(books, e), i, o)
    ensures e.action in {Trade, Fill, NoAction} || (e.action in {Add, Modify} && !Places(e)) ==>
      (Holds(Touch(books, e), i, o) <==> Holds(books, i, o))
  {
  }

  lemma TouchKeepsGood(books: Books, e: Event)
    requires GoodBooks(books) && e.instrumentId != 0
    requires Places(e) ==> forall i :: Holds(books, i, e.orderId) ==> i == e.instrumentId
    ensures GoodBooks(Touch(books, e))
  {
    BookOfGood(books, e.instrumentId);
    BookApplyKeepsGood(BookOf(books, e.instrumentId), e);
    var books' := Touch(books, e);
    forall i, j, o | Holds(books', i, o) && Holds(books', j, o)
      ensures i == j
    {
      hide Touch, Holds;
      TouchHolds(books, e, i, o);
      TouchHolds(books, e, j, o);
    }
  }

  lemma VacateClears(books: Books, e: Event)
    requires GoodBooks(books)
    ensures GoodBooks(Vacate(books, e))
    ensures Places(e) ==> forall i :: Holds(Vacate(books, e), i, e.orderId) ==> i == e.instrumentId
  {
    HomeHolds(books, e.orderId);
    var home := Home(books, e.orderId);
    if Places(e) && home != 0 && home != e.instrumentId {
      var cancel := FullCancel(e, home);
      TouchKeepsGood(books, cancel);
      forall i
        ensures !Holds(Touch(books, cancel), i, e.orderId)
      {
        TouchHolds(books, cancel, i, e.orderId);
      }
    }
  }

  lemma ApplyRoutedKeepsGood(books: Books, e: Event)
    requires GoodBooks(books) && e.instrumentId != 0
    ensures GoodBooks(ApplyRouted(books, e))
  {
    VacateClears(books, e);
    TouchKeepsGood(Vacate(books, e), e);
  }

  /** Over every run no order rests in two books and every resting order is well formed. */
  lemma {:induction false} ManagerRunGood(events: seq<Event>)
    ensures GoodBooks(ManagerRun(EMPTY_MANAGER, events).books)
  {
    if events != [] {
      var before := ManagerRun(EMPTY_MANAGER, events[..|events| - 1]);
      var e := events[|events| - 1];
      ManagerRunGood(events[..|events| - 1]);
      var i := Resolve(before.books, e);
      if i != 0 {
        ApplyRoutedKeepsGood(before.books, e.(instrumentId := i));
      }
    }
  }

  /** Moving an order between instruments cancels exactly that order: the old book finds it, keeps
      every other order and skips nothing. */
  lemma MoveCancelsExactly(books: Books, e: Event)
    requires GoodBooks(books) && Places(e)
    requires Home(books, e.orderId) !in {0, e.instrumentId}
    ensures
      var home := Home(books, e.orderId);
      && home in books
      && ApplyRouted(books, e) == books
           [home := books[home].(orders := books[home].orders - {e.orderId})]
           [e.instrumentId := BookApply(BookOf(books, e.instrumentId), e)]
  {
    HomeHolds(books, e.orderId);
  }

  /** Where an order rests and how. */
  ghost function Place(books: Books, o: nat): Option<(nat, Resting)> {
    var i := Home(books, o);
    if i in books && o in books[i].orders then Some((i, books[i].orders[o])) else None
  }

  /** What one event does to one order, across all books. The event acts on the instrument it names, else on the
      one its order rests in; placing an order takes it there from wherever it was. */
  lemma EventOnPlace(m: Manager, e: Event, o: nat)
    requires GoodBooks(m.books)
    ensures
      var before, after := Place(m.books, o), Place(ManagerApply(m, e).books, o);
      var named := Place(m.books, e.orderId);
      var i := if e.instrumentId != 0 then e.instrumentId else if named.Some? then named.value.0 else 0;
      if i != 0 && PlacesOrder(e, o) then after == Some((i, Resting(e.side, e.price, e.size)))
      else if e.action == Clear && before.Some? && before.value.0 == i then after == None
      else if e.action == Cancel && e.orderId == o && before.Some? && before.value.0 == i then
        after == if e.size == 0 || e.size >= before.value.1.size then None
                 else Some((i, before.value.1.(size := before.value.1.size - e.size)))
      else after == before
    ensures
      var named := Place(m.books, e.orderId);
      && ManagerApply(m, e).processed == m.processed + 1
      && ManagerApply(m, e).unresolved
         == m.unresolved + (if e.instrumentId == 0 && named == None then 1 else 0)
  {
    var i := Resolve(m.books, e);
    HomeHolds(m.books, e.orderId);
    assert Place(m.books, e.orderId).Some? <==> Home(m.books, e.orderId) != 0;
    if i != 0 {
      var routed := e.(instrumentId := i);
      ApplyRoutedKeepsGood(m.books, routed);
      hide GoodBooks, Place, Home, ApplyRouted, InBook;
      var books' := ApplyRouted(m.books, routed);
      var before, after := Place(m.books, o), Place(books', o);
      RoutedAt(m.books, routed, i, o);
      PlaceIs(m.books, i, o);
      PlaceIs(books', i, o);
      if before.Some? {
        RoutedAt(m.books, routed, before.value.0, o);
        PlaceIs(books', before.value.0, o);
      }
      if after.Some? {
        RoutedAt(m.books, routed, after.value.0, o);
        PlaceIs(m.books, after.value.0, o);
      }
    }
  }

  lemma RoutedAt(books: Books, e: Event, j: nat, o: nat)
    requires GoodBooks(books) && e.instrumentId != 0
    ensures InBook(ApplyRouted(books, e), j, o)
         == if j == e.instrumentId then Acted(InBook(books, j, o), e, o)
            else if PlacesOrder(e, o) then None else InBook(books, j, o)
  {
    var home := Home(books, e.orderId);
    HomeHolds(books, e.orderId);
    assert Places(e) <==> PlacesOrder(e, e.orderId);
    if InBook(books, j, o).Some? {
      assert Holds(books, j, o);
      HomeIs(books, j, o);
    }
    VacateClears(books, e);
    TouchAt(books, FullCancel(e, home), j, o);
    TouchAt(Vacate(books, e), e, j, o);
    hide GoodBooks, Touch, Home, InBook;
  }

  ghost function InBook(books: Books, i: nat, o: nat): Option<Resting> {
    if i in books then Find(books[i].orders, o) else None
  }

  /** What an event does to an order of the book it acts on. */
  function Acted(r: Option<Resting>, e: Event, o: nat): Option<Resting> {
    if PlacesOrder(e, o) then Some(Resting(e.side, e.price, e.size))
    else if e.action == Clear then None
    else if e.action == Cancel && e.orderId == o && r.Some? then
      if e.size == 0 || e.size >= r.value.size then None else Some(r.value.(size := r.value.size - e.size))
    else r
  }

  lemma PlaceIs(books: Books, j: nat, o: nat)
    requires GoodBooks(books)
    ensures InBook(books, j, o).Some? ==> Place(books, o) == Some((j, InBook(books, j, o).value))
    ensures Place(books, o).Some? ==> InBook(books, Place(books, o).value.0, o) == Some(Place(books, o).value.1)
  {
    HomeHolds(books, o);
    if InBook(books, j, o).Some? {
      assert Holds(books, j, o);
      HomeIs(books, j, o);
    }
  }

  lemma TouchAt(books: Books, e: Event, i: nat, o: nat)
    requires GoodBooks(books)
    ensures InBook(Touch(books, e), i, o)
         == if i == e.instrumentId then Acted(InBook(books, i, o), e, o) else InBook(books, i, o)
  {
    BookOfGood(books, e.instrumentId);
    EventOnOrder(BookOf(books, e.instrumentId), e, o);
  }

  // ---- the index ----

  /** The index sends an order to i exactly when book i holds it. */
  ghost predicate IndexMatches(index: map<nat, nat>, books: Books) {
    && (forall o :: o in index ==> Holds(books, index[o], o))
    && (forall i, o :: Holds(books, i, o) ==> o in index && index[o] == i)
  }

  lemma IndexFindsHome(index: map<nat, nat>, books: Books, o: nat)
    requires IndexMatches(index, books) && GoodBooks(books)
    ensures Home(books, o) == if o in index then index[o] else 0
  {
  }

  /** How the index follows one event, given what the touched book then holds. */
  function IndexAfter(index: map<nat, nat>, e: Event, holds: bool): map<nat, nat> {
    match e.action
    case Add | Modify => if e.orderId != 0 && holds then index[e.orderId := e.instrumentId] else index
    case Cancel =>
      if e.orderId == 0 then index
      else if holds then index[e.orderId := e.instrumentId]
      else if e.orderId in index && index[e.orderId] == e.instrumentId then index - {e.orderId}
      else index
    case Clear => Without(index, e.instrumentId)
    case Trade | Fill | NoAction => index
  }

  function Without(index: map<nat, nat>, i: nat): map<nat, nat> {
    map o | o in index && index[o] != i :: index[o]
  }

  lemma IndexFollows(index: map<nat, nat>, books: Books, e: Event)
    requires GoodBooks(books) && IndexMatches(index, books) && e.instrumentId != 0
    requires Places(e) ==> forall i :: Holds(books, i, e.orderId) ==> i == e.instrumentId
    ensures
      var books' := Touch(books, e);
      IndexMatches(IndexAfter(index, e, Holds(books', e.instrumentId, e.orderId)), books')
  {
    var books' := Touch(books, e);
    var index' := IndexAfter(index, e, Holds(books', e.instrumentId, e.orderId));
    TouchKeepsGood(books, e);
    TouchHolds(books, e, e.instrumentId, e.orderId);
    hide Touch;
    forall o | o in index'
      ensures Holds(books', index'[o], o)
    {
      TouchHolds(books, e, index'[o], o);
    }
    forall i, o | Holds(books', i, o)
      ensures o in index' && index'[o] == i
    {
      TouchHolds(books, e, i, o);
    }
  }

  /** What a snapshot of the manager holds. */
  datatype ManagerSnapshot = ManagerSnapshot(
    eventCount: nat, timestamp: nat, processed: nat, unresolved: nat, instruments: seq<InstrumentSnapshot>)

  ghost predicate IsManagerSnapshot(s: ManagerSnapshot, m: Manager, eventCount: nat, timestamp: nat, depth: nat) {
    && s.eventCount == eventCount && s.timestamp == timestamp
    && s.processed == m.processed && s.unresolved == m.unresolved
    && AllGood(m.books) && IsSnapshotList(s.instruments, m.books, depth)
  }

  class BookManager {
    var books: map<nat, LimitOrderBook>
    var index: map<nat, nat>
    var processed: nat
    var unresolved: nat

    ghost predicate ValidBooks()
      reads `books, books.Values
    {
      && (forall i :: i in books ==> books[i].Valid() && books[i].instrumentId == i)
      && GoodBooks(Values())
    }

    ghost predicate Valid()
      reads `books, `index, books.Values
    {
      ValidBooks() && IndexMatches(index, Values())
    }

    ghost function Values(): Books
      reads `books, books.Values
    {
      map i | i in books :: books[i].Value()
    }

    ghost function Value(): Manager
      reads this, books.Values
    {
      Manager(Values(), processed, unresolved)
    }

    constructor ()
      ensures Valid() && Value() == EMPTY_MANAGER && books == map[]
    {
      books, index, processed, unresolved := map[], map[], 0, 0;
    }

    method Apply(e: Event)
      requires Valid()
      modifies this, books.Values
      ensures Valid() && fresh(books.Values - old(books.Values))
      ensures Value() == ManagerApply(old(Value()), e)
    {
      hide Valid, ValidBooks, Values, Resolve, Touch, Vacate, Holds, GoodBooks;
      processed := processed + 1;
      var i := ResolveInstrumentId(e);
      if i == 0 {
        unresolved := unresolved + 1;
        return;
      }
      var routed := e.(instrumentId := i);
      ValuesGood();
      VacateClears(Values(), routed);
      RemovePreviousInstrumentMapping(routed);
      ApplyAndReindex(routed);
    }

    /** Let the event act on its book, then bring the index up to date. */
    method ApplyAndReindex(e: Event)
      requires Valid() && e.instrumentId != 0
      requires Places(e) ==> forall i :: Holds(Values(), i, e.orderId) ==> i == e.instrumentId
      modifies `books, `index, books.Values
      ensures Valid() && fresh(books.Values - old(books.Values))
      ensures Values() == Touch(old(Values()), e)
    {
      hide IndexMatches, GoodBooks, Touch, BookApply, IndexAfter, LimitOrderBook.Valid;
      TouchKeepsGood(Values(), e);
      IndexFollows(index, Values(), e);
      ApplyToBook(e);
      UpdateOrderMapping(e, e.orderId in books[e.instrumentId].orders);
    }

    function ResolveInstrumentId(e: Event): (i: nat)
      requires Valid()
      reads `books, `index, books.Values
      ensures i == Resolve(Values(), e)
    {
      IndexFindsHome(index, Values(), e.orderId);
      if e.instrumentId != 0 then e.instrumentId
      else if e.orderId == 0 then
        0
      else if e.orderId !in index then 0
      else index[e.orderId]
    }

    /** Take a moving order out of its old book and out of the index. */
    method RemovePreviousInstrumentMapping(e: Event)
      requires Valid() && e.instrumentId != 0
      modifies this`index, books.Values
      ensures Valid()
      ensures Values() == Vacate(old(Values()), e)
    {
      hide IndexMatches, GoodBooks, BookApply, Home, LimitOrderBook.Valid;
      var o := e.orderId;
      IndexFindsHome(index, Values(), o);
      if !Places(e) || o !in index || index[o] == e.instrumentId {
        return;
      }
      var home := index[o];
      IndexedBookExists(index, Values(), o);
      var cancel := FullCancel(e, home);
      TouchKeepsGood(Values(), cancel);
      IndexFollows(index, Values(), cancel);
      TouchHolds(Values(), cancel, home, o);
      books[home].Apply(cancel);
      assert Values() == Touch(old(Values()), cancel);
      index := index - {o};
    }

    /** Find or create the book the event names and let the event act on it. */
    method ApplyToBook(e: Event)
      requires ValidBooks() && e.instrumentId != 0 && GoodBooks(Touch(Values(), e))
      modifies this`books, books.Values
      ensures ValidBooks() && fresh(books.Values - old(books.Values))
      ensures e.instrumentId in books
      ensures Values() == Touch(old(Values()), e)
    {
      hide GoodBooks, BookApply, LimitOrderBook.Valid;
      var i := e.instrumentId;
      if i !in books {
        var created := new LimitOrderBook(i);
        books := books[i := created];
      }
      books[i].Apply(e);
      assert Values() == Touch(old(Values()), e);
    }

    method UpdateOrderMapping(e: Event, holds: bool)
      modifies this`index
      ensures index == IndexAfter(old(index), e, holds)
    {
      match e.action
      case Add | Modify =>
        if e.orderId != 0 && holds {
          index := index[e.orderId := e.instrumentId];
        }
      case Cancel =>
        if e.orderId == 0 {
          return;
        }
        if holds {
          index := index[e.orderId := e.instrumentId];
        } else if e.orderId in index && index[e.orderId] == e.instrumentId {
          index := index - {e.orderId};
        }
      case Clear => EraseOrderMappingsForInstrument(e.instrumentId);
      case _ =>
    }

    /** The counters, and every book in ascending order of instrument. */
    method Snapshot(eventCount: nat, timestamp: nat, depth: nat) returns (s: ManagerSnapshot)
      requires Valid()
      ensures IsManagerSnapshot(s, Value(), eventCount, timestamp, depth)
    {
      var list := SnapshotBooks(depth);
      s := ManagerSnapshot(eventCount, timestamp, processed, unresolved, list);
      hide AllGood, IsSnapshotList;
    }

    method SnapshotBooks(depth: nat) returns (list: seq<InstrumentSnapshot>)
      requires Valid()
      ensures AllGood(Values()) && IsSnapshotList(list, Values(), depth)
    {
      ghost var values := Values();
      hide *;
      ValuesGood();
      var ids := SortedIds(books.Keys);
      list := [];
      for k := 0 to |ids|
        invariant |list| == k && ValidBooks() && Values() == values
        invariant forall j :: 0 <= j < k ==> ids[j] in values && Listed(list[j], ids[j], values, depth)
      {
        var entry := SnapshotBook(ids[k], depth);
        list := list + [entry];
      }
      ListedInOrder(list, ids, values, depth);
    }

    lemma ValuesGood()
      requires Valid()
      ensures ValidBooks() && GoodBooks(Values()) && AllGood(Values()) && Values().Keys == books.Keys
    {
      hide IndexMatches, LimitOrderBook.Valid, GoodBook;
    }

    method SnapshotBook(i: nat, depth: nat) returns (entry: InstrumentSnapshot)
      requires ValidBooks() && i in books
      ensures AllGood(Values()) && i in Values() && Listed(entry, i, Values(), depth)
    {
      var book := books[i];
      hide BestPrice, TopOfBook, Aggregates, GoodBooks;
      var bestBid := book.BestBid();
      var bestAsk := book.BestAsk();
      var bids := book.DepthLevels(Bid, depth);
      var asks := book.DepthLevels(Ask, depth);
      entry := InstrumentSnapshot(i, |book.orders|, bestBid, bestAsk, bids, asks);
    }

    /** The erase loop over the whole index. */
    method EraseOrderMappingsForInstrument(i: nat)
      modifies this`index
      ensures index == Without(old(index), i)
    {
      var unseen := index.Keys;
      while unseen != {}
        invariant unseen <= index.Keys <= old(index).Keys
        invariant forall o :: o in index ==> index[o] == old(index)[o]
        invariant forall o :: o in old(index) && o !in unseen ==> (o in index <==> old(index)[o] != i)
        decreases |unseen|
      {
        var o :| o in unseen;
        if index[o] == i {
          index := index - {o};
        }
        unseen := unseen - {o};
      }
    }
  }

  predicate Ascending(ids: seq<nat>) {
    forall j, k :: 0 <= j < k < |ids| ==> ids[j] < ids[k]
  }

  method SortedIds(keys: set<nat>) returns (ids: seq<nat>)
    ensures Ascending(ids) && forall i :: i in ids <==> i in keys
  {
    ids := [];
    var unseen: set<int> := keys;
    while unseen != {}
      invariant unseen <= keys
      invariant Ascending(ids)
      invariant forall i :: i in ids <==> i in keys && i !in unseen
      invariant forall k, i :: 0 <= k < |ids| && i in unseen ==> ids[k] < i
      decreases |unseen|
    {
      var i := Best(Ask, unseen);
      ids := ids + [i];
      unseen := unseen - {i};
    }
  }

  ghost predicate Listed(x: InstrumentSnapshot, i: nat, books: Books, depth: nat)
    requires AllGood(books) && i in books
  {
    x.instrumentId == i && x == SnapshotOf(i, books[i], depth)
  }

  lemma ListedInOrder(l: seq<InstrumentSnapshot>, ids: seq<nat>, books: Books, depth: nat)
    requires AllGood(books) && Ascending(ids) && |l| == |ids|
    requires forall i :: i in ids <==> i in books
    requires forall j :: 0 <= j < |ids| ==> ids[j] in books && Listed(l[j], ids[j], books, depth)
    ensures IsSnapshotList(l, books, depth)
  {
    hide SnapshotOf, GoodBook;
    forall i | i in books
      ensures SnapshotOf(i, books[i], depth) in l
    {
      var j :| 0 <= j < |ids| && ids[j] == i;
      assert Listed(l[j], ids[j], books, depth);
    }
    assert Entries(l, books, depth);
    assert ById(l);
  }

  lemma IndexedBookExists(index: map<nat, nat>, books: Books, o: nat)
    requires IndexMatches(index, books) && GoodBooks(books) && o in index
    ensures index[o] in books && index[o] != 0 && o in books[index[o]].orders
  {
    assert Holds(books, index[o], o);
  }
}
