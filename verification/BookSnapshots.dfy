/** Structured snapshots of a set of books: the comparison key of two runs. */
module BookSnapshots {
  import opened Domain
  import opened Totals
  import opened Ladders
  import opened RestingOrders
  import opened LimitOrderBooks

  datatype InstrumentSnapshot = InstrumentSnapshot(
    instrumentId: nat,
    restingOrders: nat,
    bestBid: Option<int>,
    bestAsk: Option<int>,
    bids: seq<Level>,
    asks: seq<Level>)

  ghost function SnapshotOf(i: nat, b: Book, depth: nat): InstrumentSnapshot
    requires GoodBook(b)
  {
    InstrumentSnapshot(i, |b.orders|,
      BestPrice(b.orders, Bid), BestPrice(b.orders, Ask),
      TopOfBook(b.orders, Bid, depth), TopOfBook(b.orders, Ask, depth))
  }

  /** What a snapshot tells about each resting order: its side's best price and depth list account for it. */
  lemma SnapshotMeaning(i: nat, b: Book, depth: nat, o: nat)
    requires GoodBook(b) && o in b.orders
    ensures
      var s, r := SnapshotOf(i, b, depth), b.orders[o];
      && s.instrumentId == i && s.restingOrders == |b.orders|
      && (r.side == Bid ==> s.bestBid.Some? && r.price <= s.bestBid.value && Shown(s.bids, Bid, depth, r.price))
      && (r.side == Ask ==> s.bestAsk.Some? && r.price >= s.bestAsk.value && Shown(s.asks, Ask, depth, r.price))
    ensures
      var s := SnapshotOf(i, b, depth);
      && (forall k :: 0 <= k < |s.bids| ==> s.bids[k].size == Volume(b.orders, Bid, s.bids[k].price) > 0)
      && (forall k :: 0 <= k < |s.asks| ==> s.asks[k].size == Volume(b.orders, Ask, s.asks[k].price) > 0)
      && BestFirst(s.bids, Bid) && BestFirst(s.asks, Ask)
  {
    hide BestPrice, TopOfBook, Shown, BestFirst, Volume;
    BestPriceMeaning(b.orders, Bid);
    BestPriceMeaning(b.orders, Ask);
    TopOfBookMeaning(b.orders, Bid, depth);
    TopOfBookMeaning(b.orders, Ask, depth);
  }

  predicate ById(l: seq<InstrumentSnapshot>) {
    forall j, k :: 0 <= j < k < |l| ==> l[j].instrumentId < l[k].instrumentId
  }

  ghost predicate AllGood(books: map<nat, Book>) {
    forall i :: i in books ==> GoodBook(books[i])
  }

  /** Every listed entry is the snapshot of one of the books. */
  ghost predicate Entries(l: seq<InstrumentSnapshot>, books: map<nat, Book>, depth: nat)
    requires AllGood(books)
  {
    forall k :: 0 <= k < |l| ==>
      l[k].instrumentId in books && l[k] == SnapshotOf(l[k].instrumentId, books[l[k].instrumentId], depth)
  }

  /** Every book is listed. */
  ghost predicate Covers(l: seq<InstrumentSnapshot>, books: map<nat, Book>, depth: nat)
    requires AllGood(books)
  {
    forall i :: i in books ==> SnapshotOf(i, books[i], depth) in l
  }

  /** The instrument list of a snapshot: ascending ids, one entry per book. */
  ghost predicate IsSnapshotList(l: seq<InstrumentSnapshot>, books: map<nat, Book>, depth: nat)
    requires AllGood(books)
  {
    ById(l) && Entries(l, books, depth) && Covers(l, books, depth)
  }

  ghost predicate Within(l: seq<InstrumentSnapshot>, m: seq<InstrumentSnapshot>) {
    forall x :: x in l ==> x in m
  }

  /** Ascending ids leave no freedom: the books determine the list. */
  lemma SnapshotListUnique(
    l: seq<InstrumentSnapshot>, m: seq<InstrumentSnapshot>, books: map<nat, Book>, depth: nat)
    requires AllGood(books)
    requires IsSnapshotList(l, books, depth) && IsSnapshotList(m, books, depth)
    ensures l == m
  {
    hide SnapshotOf, GoodBook;
    assert Within(l, m) && Within(m, l);
    SameElementsById(l, m);
  }

  lemma {:induction false} SameElementsById(l: seq<InstrumentSnapshot>, m: seq<InstrumentSnapshot>)
    requires ById(l) && ById(m) && Within(l, m) && Within(m, l)
    ensures l == m
    decreases |l|
  {
    if l == [] || m == [] {
      HeadWithin(l, m);
      HeadWithin(m, l);
    } else {
      SameHead(l, m);
      TailWithin(l, m);
      TailWithin(m, l);
      hide Within;
      SameElementsById(l[1..], m[1..]);
      assert l == [l[0]] + l[1..] && m == [m[0]] + m[1..];
    }
  }

  lemma HeadWithin(l: seq<InstrumentSnapshot>, m: seq<InstrumentSnapshot>)
    requires Within(l, m)
    ensures l == [] || l[0] in m
  {
    assert l == [] || l[0] in l;
  }

  lemma SameHead(l: seq<InstrumentSnapshot>, m: seq<InstrumentSnapshot>)
    requires ById(l) && ById(m) && Within(l, m) && Within(m, l) && l != [] && m != []
    ensures l[0] == m[0]
  {
    assert l[0] in l && m[0] in m;
    var a :| 0 <= a < |m| && m[a] == l[0];
    var b :| 0 <= b < |l| && l[b] == m[0];
  }

  lemma TailWithin(l: seq<InstrumentSnapshot>, m: seq<InstrumentSnapshot>)
    requires l != [] && m != [] && l[0] == m[0] && ById(l) && Within(l, m)
    ensures Within(l[1..], m[1..])
  {
    forall x | x in l[1..]
      ensures x in m[1..]
    {
      var k :| 0 <= k < |l[1..]| && l[1..][k] == x;
      assert l[0].instrumentId < l[k + 1].instrumentId;
      assert l[k + 1] in l;
      var j :| 0 <= j < |m| && m[j] == x;
      assert m[1..][j - 1] == m[j];
    }
  }

  // ---- counters summed over the books ----

  datatype Stat = Recovered | ModifySkipped | CancelSkipped | RestingCount

  function StatOf(b: Book, stat: Stat): nat {
    match stat
    case Recovered => b.recovered
    case ModifySkipped => b.modifySkipped
    case CancelSkipped => b.cancelSkipped
    case RestingCount => |b.orders|
  }

  ghost function Stats(books: map<nat, Book>, stat: Stat): map<nat, int> {
    map i | i in books :: StatOf(books[i], stat)
  }

  ghost function TotalStat(books: map<nat, Book>, stat: Stat): int {
    Total(Stats(books, stat))
  }

  /** Sums over disjoint sets of books add up. */
  lemma TotalStatUnion(a: map<nat, Book>, b: map<nat, Book>, stat: Stat)
    requires forall k :: k in a ==> k !in b
    ensures TotalStat(a + b, stat) == TotalStat(a, stat) + TotalStat(b, stat)
  {
    assert Stats(a + b, stat) == Stats(a, stat) + Stats(b, stat);
    TotalUnion(Stats(a, stat), Stats(b, stat));
  }
}
