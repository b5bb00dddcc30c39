/** The store of historical books. */
module HistoricalLobStores {
  import opened Domain
  import opened Ladders
  import opened RestingOrders
  import opened HistoricalLobs

  type Store = map<nat, HistOrders>

  function TableOf(store: Store, i: nat): HistOrders {
    if i in store then store[i] else map[]
  }

  function StoreApply(store: Store, e: Event): Store {
    if e.instrumentId == 0 then
      if e.action == Clear then map[] else store
    else store[e.instrumentId := HistApply(TableOf(store, e.instrumentId), e)]
  }

  /** Book i of the store holds orders of instrument i only. */
  ghost predicate Filed(store: Store) {
    forall i, o :: i in store && o in store[i] ==> store[i][o].instrumentId == i
  }

  lemma StoreApplyKeepsFiled(store: Store, e: Event)
    requires Filed(store)
    ensures Filed(StoreApply(store, e))
  {
  }

  /** The selective clear leaves a book of the store completely empty. */
  lemma ClearEmptiesBook(store: Store, e: Event)
    requires Filed(store) && e.action == Clear && e.instrumentId != 0
    ensures StoreApply(store, e) == store[e.instrumentId := map[]]
  {
    assert HistApply(TableOf(store, e.instrumentId), e) == map[];
  }

  ghost predicate GoodStore(store: Store) {
    forall i :: i in store ==> WellFormed(Plain(store[i]))
  }

  lemma StoreApplyKeepsGood(store: Store, e: Event)
    requires GoodStore(store)
    ensures GoodStore(StoreApply(store, e))
  {
    var i := e.instrumentId;
    if i != 0 {
      assert WellFormed(Plain(TableOf(store, i)));
      HistApplyKeepsWellFormed(TableOf(store, i), e);
    }
    hide HistApply;
  }

  lemma HistApplyKeepsWellFormed(h: HistOrders, e: Event)
    requires WellFormed(Plain(h))
    ensures WellFormed(Plain(HistApply(h, e)))
  {
    match e.action
    case Add | Modify => PlainFacts(h, e.orderId, HistOf(e));
    case Cancel =>
      if e.orderId in h {
        var amount := CancelAmount(e, PlainOrder(h[e.orderId]));
        PlainReduce(h, e.orderId, amount);
        ReduceKeepsWellFormed(Plain(h), e.orderId, amount);
      }
    case Clear =>
      forall o | o in KeepOthers(h, e.instrumentId)
        ensures Plain(KeepOthers(h, e.instrumentId))[o] == Plain(h)[o]
      {
      }
    case _ =>
  }

  /** The historical levels of one side of one instrument. */
  ghost function HistLevels(store: Store, i: nat, side: Side): Levels
    requires GoodStore(store)
  {
    if i in store then SideLevels(Plain(store[i]), side) else map[]
  }

  datatype LobSnapshot = LobSnapshot(instrumentId: nat, bids: seq<Level>, asks: seq<Level>)

  /** The first levels of a ladder; None stands for a depth beyond any number of levels. */
  function Cut(l: seq<Level>, depth: Option<nat>): seq<Level> {
    if depth.Some? && depth.value < |l| then l[..depth.value] else l
  }

  method LevelsTo(side: Side, levels: Levels, depth: Option<nat>) returns (top: seq<Level>)
    ensures top == Cut(Ladder(side, levels), depth)
  {
    top := TopLevels(side, levels, if depth.Some? then depth.value else |levels|);
    ghost var ladder := Ladder(side, levels);
    LadderUnique(side, ladder, ladder, levels);
  }

  lemma EmptyLadder(side: Side)
    ensures Ladder(side, map[]) == []
  {
    HeadListed(Ladder(side, map[]), map[]);
  }

  class HistoricalLobStore {
    var books: map<nat, HistoricalLOB>

    ghost predicate Valid()
      reads `books, books.Values
    {
      && (forall i :: i in books ==> books[i].Valid() && books[i].instrumentId == i && i != 0)
      && Filed(Tables())
    }

    ghost function Tables(): Store
      reads `books, books.Values
    {
      map i | i in books :: books[i].orders
    }

    constructor ()
      ensures Valid() && Tables() == map[]
    {
      books := map[];
    }

    /** The levels of one instrument down to a depth; an unknown instrument has an empty snapshot. */
    method Snapshot(i: nat, depth: Option<nat>) returns (s: LobSnapshot)
      requires Valid()
      ensures GoodStore(Tables()) && s.instrumentId == i
      ensures s.bids == Cut(Ladder(Bid, HistLevels(Tables(), i, Bid)), depth)
      ensures s.asks == Cut(Ladder(Ask, HistLevels(Tables(), i, Ask)), depth)
    {
      TablesGood();
      if i !in books {
        EmptyLadder(Bid);
        EmptyLadder(Ask);
        return LobSnapshot(i, [], []);
      }
      var book := books[i];
      AggregatesUnique(book.bids, HistLevels(Tables(), i, Bid), Plain(book.orders), Bid);
      AggregatesUnique(book.asks, HistLevels(Tables(), i, Ask), Plain(book.orders), Ask);
      hide *;
      var bids := LevelsTo(Bid, book.bids, depth);
      var asks := LevelsTo(Ask, book.asks, depth);
      s := LobSnapshot(book.instrumentId, bids, asks);
    }

    lemma TablesGood()
      requires Valid()
      ensures GoodStore(Tables())
    {
    }

    method Apply(e: Event)
      requires Valid()
      modifies this, books.Values
      ensures Valid() && fresh(books.Values - old(books.Values))
      ensures Tables() == StoreApply(old(Tables()), e)
    {
      if e.action == Clear && e.instrumentId == 0 {
        books := map[];
        return;
      }
      if e.instrumentId == 0 {
        return;
      }
      StoreApplyKeepsFiled(Tables(), e);
      ApplyToBook(e);
    }

    method ApplyToBook(e: Event)
      requires Valid() && e.instrumentId != 0 && Filed(StoreApply(Tables(), e))
      modifies this, books.Values
      ensures Valid() && fresh(books.Values - old(books.Values))
      ensures Tables() == StoreApply(old(Tables()), e)
    {
      hide Filed, HistApply, HistoricalLOB.Valid;
      var i := e.instrumentId;
      if i !in books {
        var created := new HistoricalLOB();
        books := books[i := created];
      }
      books[i].Apply(e);
      assert Tables() == StoreApply(old(Tables()), e);
    }
  }
}
