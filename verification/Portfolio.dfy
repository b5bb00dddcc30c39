/** Average-cost positions and profit. Averages are rounded down to whole prices; the proofs account for
    every unit that rounding moves. */
module Portfolios {
  import opened Domain
  import opened Totals

  datatype Ledger = Ledger(positions: map<int, int>, realized: int, lastPrice: map<int, int>, average: map<int, int>)

  datatype Entry =
    | Deal(instrument: int, side: Side, price: int, size: int)
    | Mark(instrument: int, price: int)

  function Get(m: map<int, int>, i: int): int {
    if i in m then m[i] else 0
  }

  function Abs(x: int): nat {
    if x >= 0 then x else -x
  }

  predicate SameDirection(a: int, b: int) {
    (a > 0 && b > 0) || (a < 0 && b < 0)
  }

  /** Every side but a bid sells. */
  function Signed(side: Side, size: int): int {
    if side == Bid then size else -size
  }

  // ---- the simple form: one holding ----

  /** A position with its average price, zero when flat. */
  datatype Holding = Holding(position: int, average: int)

  function Blend(h: Holding, price: int, signed: int): int
    requires SameDirection(h.position, signed)
  {
    (h.average * Abs(h.position) + price * Abs(signed)) / Abs(h.position + signed)
  }

  /** The position after a fill of non-zero signed size. */
  function Traded(h: Holding, price: int, signed: int): Holding {
    var position := h.position + signed;
    if h.position == 0 then Holding(position, price)
    else if SameDirection(h.position, signed) then Holding(position, Blend(h, price, signed))
    else if position == 0 then Holding(0, 0)
    else if SameDirection(h.position, position) then Holding(position, h.average)
    else Holding(position, price)
  }

  function Closed(h: Holding, signed: int): nat {
    if h.position == 0 || SameDirection(h.position, signed) then 0
    else if Abs(h.position) < Abs(signed) then Abs(h.position) else Abs(signed)
  }

  /** Profit realized by the part of the position that is closed. */
  function Gain(h: Holding, price: int, signed: int): int {
    if h.position > 0 then (price - h.average) * Closed(h, signed) else (h.average - price) * Closed(h, signed)
  }

  /** What rounding the average down adds to the books: the remainder of the division, to the good of a long
      position and at the expense of a short one. Only extending a position rounds. */
  function Rounding(h: Holding, price: int, signed: int): int {
    if !SameDirection(h.position, signed) then 0
    else
      var lost := (h.average * Abs(h.position) + price * Abs(signed)) % Abs(h.position + signed);
      if h.position > 0 then lost else -lost
  }

  function Slack(h: Holding, signed: int): nat {
    if SameDirection(h.position, signed) then Abs(h.position + signed) - 1 else 0
  }

  lemma RoundingBounds(h: Holding, price: int, signed: int)
    ensures Abs(Rounding(h, price, signed)) <= Slack(h, signed)
    ensures h.position >= 0 ==> Rounding(h, price, signed) >= 0
  {
  }

  /** Cost of the position plus cash paid moves only by realized profit and rounding. */
  lemma TradeBalances(h: Holding, price: int, signed: int)
    requires signed != 0 && (h.position == 0 ==> h.average == 0)
    ensures
      var h' := Traded(h, price, signed);
      Gain(h, price, signed) - h'.average * h'.position + h.average * h.position + price * signed
      == Rounding(h, price, signed)
  {
    if SameDirection(h.position, signed) {
      var total, n := h.average * Abs(h.position) + price * Abs(signed), Abs(h.position + signed);
      assert total == total / n * n + total % n;
      if h.position > 0 {
        assert Blend(h, price, signed) * (h.position + signed) == total / n * n;
      } else {
        assert Blend(h, price, signed) * (h.position + signed) == -(total / n * n);
      }
    } else if h.position > 0 {
      LongCloses(h, price, signed);
    } else if h.position < 0 {
      ShortCloses(h, price, signed);
    }
  }

  lemma LongCloses(h: Holding, price: int, signed: int)
    requires h.position > 0 > signed
    ensures
      var h' := Traded(h, price, signed);
      Gain(h, price, signed) - h'.average * h'.position + h.average * h.position + price * signed == 0
  {
    var position := h.position + signed;
    if position > 0 {
      assert (price - h.average) * -signed == -(price * signed) + h.average * signed;
      assert h.average * position == h.average * h.position + h.average * signed;
    } else {
      assert (price - h.average) * h.position == price * h.position - h.average * h.position;
      assert price * position == price * h.position + price * signed;
    }
  }

  lemma ShortCloses(h: Holding, price: int, signed: int)
    requires h.position < 0 < signed
    ensures
      var h' := Traded(h, price, signed);
      Gain(h, price, signed) - h'.average * h'.position + h.average * h.position + price * signed == 0
  {
    var position := h.position + signed;
    if position < 0 {
      assert (h.average - price) * signed == h.average * signed - price * signed;
      assert h.average * position == h.average * h.position + h.average * signed;
    } else {
      assert (h.average - price) * -h.position == -(h.average * h.position) + price * h.position;
      assert price * position == price * h.position + price * signed;
    }
  }

  lemma Scale(x: int, y: int, k: nat)
    requires x <= y
    ensures x * k <= y * k
  {
  }

  lemma Unscale(x: int, y: int, k: nat)
    requires x * k < y * k
    ensures x < y
  {
    if y <= x {
      Scale(y, x, k);
    }
  }

  lemma FloorBetween(total: int, n: int, lo: int, hi: int)
    requires n > 0 && lo * n <= total <= hi * n
    ensures lo <= total / n <= hi
  {
    var q := total / n;
    assert q * n <= total < q * n + n;
    assert (q + 1) * n == q * n + n && (hi + 1) * n == hi * n + n;
    Unscale(lo, q + 1, n);
    Unscale(q, hi + 1, n);
  }

  /** Rounding down keeps the blend between the old average and the new price. */
  lemma BlendBetween(h: Holding, price: int, signed: int, lo: int, hi: int)
    requires SameDirection(h.position, signed)
    requires lo <= h.average <= hi && lo <= price <= hi
    ensures lo <= Blend(h, price, signed) <= hi
  {
    var a, b := Abs(h.position), Abs(signed);
    assert Blend(h, price, signed) == (h.average * a + price * b) / (a + b);
    hide Blend;
    Scale(lo, h.average, a);
    Scale(h.average, hi, a);
    Scale(lo, price, b);
    Scale(price, hi, b);
    Distribute(lo, a, b);
    Distribute(hi, a, b);
    FloorBetween(h.average * a + price * b, a + b, lo, hi);
  }

  lemma Distribute(x: int, a: int, b: int)
    ensures x * (a + b) == x * a + x * b
  {
  }

  // ---- the ledger ----

  function HoldingOf(l: Ledger, i: int): Holding {
    Holding(Get(l.positions, i), Get(l.average, i))
  }

  function Put(l: Ledger, i: int, h: Holding): Ledger {
    l.(positions := l.positions[i := h.position],
       average := if h.position == 0 then l.average - {i} else l.average[i := h.average])
  }

  predicate Counts(e: Entry) {
    e.Deal? && e.size > 0
  }

  function Post(l: Ledger, e: Entry): Ledger {
    match e
    case Mark(i, price) => l.(lastPrice := l.lastPrice[i := price])
    case Deal(i, side, price, size) =>
      if size <= 0 then l
      else
        var h, signed := HoldingOf(l, i), Signed(side, size);
        Put(l, i, Traded(h, price, signed)).(realized := l.realized + Gain(h, price, signed))
  }

  /** An average price is stored exactly for the open positions. */
  ghost predicate GoodLedger(l: Ledger) {
    forall i :: i in l.average <==> Get(l.positions, i) != 0
  }

  lemma PostKeepsGood(l: Ledger, e: Entry)
    requires GoodLedger(l)
    ensures GoodLedger(Post(l, e))
  {
    hide Blend;
  }

  function Unrealized(l: Ledger, i: int): int {
    var position := Get(l.positions, i);
    if position == 0 || i !in l.lastPrice || i !in l.average then 0
    else if position > 0 then (l.lastPrice[i] - l.average[i]) * position
    else (l.average[i] - l.lastPrice[i]) * Abs(position)
  }

  ghost function UnrealizedMap(l: Ledger): map<int, int> {
    map i | i in l.positions :: Unrealized(l, i)
  }

  /** Mark-to-market profit. */
  ghost function MarkToMarket(l: Ledger): int {
    l.realized + Total(UnrealizedMap(l))
  }

  function Product(a: int, b: int): int {
    a * b
  }

  ghost function Costs(l: Ledger): map<int, int> {
    map i | i in l.positions :: Product(Get(l.average, i), l.positions[i])
  }

  ghost function Exposure(l: Ledger): map<int, int> {
    map i | i in l.positions :: Product(Get(l.lastPrice, i), l.positions[i])
  }

  /** What the account is really worth: the cash that flowed plus every position at its last price. */
  ghost function Worth(l: Ledger, cash: int): int {
    cash + Total(Exposure(l))
  }

  /** What the books say beyond cash and cost. */
  ghost function Books(l: Ledger, cash: int): int {
    l.realized - Total(Costs(l)) - cash
  }

  ghost predicate Priced(l: Ledger) {
    forall i :: Get(l.positions, i) != 0 ==> i in l.lastPrice
  }

  lemma {:induction false} TotalDifference(a: map<int, int>, b: map<int, int>, c: map<int, int>)
    requires a.Keys == b.Keys == c.Keys && forall i :: i in a ==> a[i] == b[i] - c[i]
    ensures Total(a) == Total(b) - Total(c)
    decreases |a|
  {
    if a == map[] {
      assert b == map[] && c == map[];
    } else {
      SomeKey(a);
      var i :| i in a;
      RemoveShrinks(a, i);
      TotalRemove(a, i);
      TotalRemove(b, i);
      TotalRemove(c, i);
      hide Total;
      TotalDifference(a - {i}, b - {i}, c - {i});
    }
  }

  lemma SomeKey(m: map<int, int>)
    ensures m == map[] || exists i :: i in m
  {
    if forall i :: i !in m {
      assert m == map[];
    }
  }

  lemma UnrealizedIs(l: Ledger, i: int)
    requires GoodLedger(l) && Priced(l) && i in l.positions
    ensures Unrealized(l, i) == Exposure(l)[i] - Costs(l)[i]
  {
    var p := l.positions[i];
    if p > 0 {
      assert (l.lastPrice[i] - l.average[i]) * p == l.lastPrice[i] * p - l.average[i] * p;
    } else if p < 0 {
      assert (l.average[i] - l.lastPrice[i]) * -p == l.lastPrice[i] * p - l.average[i] * p;
    }
  }

  /** Marking every open position at its last price cancels out: profit and worth differ by the books alone. */
  lemma ProfitBeyondWorth(l: Ledger, cash: int)
    requires GoodLedger(l) && Priced(l)
    ensures MarkToMarket(l) - Worth(l, cash) == Books(l, cash)
  {
    forall i | i in l.positions
      ensures UnrealizedMap(l)[i] == Exposure(l)[i] - Costs(l)[i]
    {
      UnrealizedIs(l, i);
    }
    TotalDifference(UnrealizedMap(l), Exposure(l), Costs(l));
  }

  /** Cash a fill brings in: a buy pays, every other side is paid. */
  function Proceeds(e: Entry): int {
    if e.Mark? || e.size <= 0 then 0 else if e.side == Bid then -(e.price * e.size) else e.price * e.size
  }

  lemma ProceedsSigned(e: Entry)
    requires Counts(e)
    ensures Proceeds(e) == -(e.price * Signed(e.side, e.size))
  {
  }

  function RoundingOf(l: Ledger, e: Entry): int {
    if Counts(e) then Rounding(HoldingOf(l, e.instrument), e.price, Signed(e.side, e.size)) else 0
  }

  function SlackOf(l: Ledger, e: Entry): nat {
    if Counts(e) then Slack(HoldingOf(l, e.instrument), Signed(e.side, e.size)) else 0
  }

  /** An entry moves the books by its rounding and by nothing else. */
  lemma PostMovesBooks(l: Ledger, e: Entry, cash: int)
    requires GoodLedger(l)
    ensures Books(Post(l, e), cash + Proceeds(e)) == Books(l, cash) + RoundingOf(l, e)
  {
    var l' := Post(l, e);
    if Counts(e) {
      var i, signed := e.instrument, Signed(e.side, e.size);
      var h := HoldingOf(l, i);
      var h' := Traded(h, e.price, signed);
      TradeBalances(h, e.price, signed);
      ProceedsSigned(e);
      PostChangesCost(l, i, h', l');
      hide Traded, Gain, Rounding, Total, Proceeds, Signed;
      assert Product(h'.average, h'.position) == h'.average * h'.position;
      assert Product(h.average, h.position) == h.average * h.position;
    } else {
      assert Costs(l') == Costs(l);
    }
  }

  lemma PostChangesCost(l: Ledger, i: int, h: Holding, l': Ledger)
    requires GoodLedger(l) && l'.positions == Put(l, i, h).positions && l'.average == Put(l, i, h).average
    ensures Total(Costs(l')) == Total(Costs(l)) + Product(h.average, h.position)
                              - Product(Get(l.average, i), Get(l.positions, i))
  {
    hide Total;
    var cost := Product(h.average, h.position);
    assert Costs(l') == Costs(l)[i := cost];
    TotalUpdate(Costs(l), i, cost);
    TotalWithout(Costs(l), i);
  }

  // ---- histories ----

  const EMPTY: Ledger := Ledger(map[], 0, map[], map[])

  function LedgerAfter(entries: seq<Entry>): (l: Ledger)
    ensures GoodLedger(l)
  {
    if entries == [] then EMPTY
    else
      var before := LedgerAfter(entries[..|entries| - 1]);
      PostKeepsGood(before, entries[|entries| - 1]);
      Post(before, entries[|entries| - 1])
  }

  function CashFlow(entries: seq<Entry>): int {
    if entries == [] then 0 else CashFlow(entries[..|entries| - 1]) + Proceeds(entries[|entries| - 1])
  }

  function Drift(entries: seq<Entry>): int {
    if entries == [] then 0
    else
      var before := entries[..|entries| - 1];
      Drift(before) + RoundingOf(LedgerAfter(before), entries[|entries| - 1])
  }

  /** The sum of (new position - 1), in absolute value, over the fills that extended a position. */
  function TotalSlack(entries: seq<Entry>): nat {
    if entries == [] then 0
    else
      var before := entries[..|entries| - 1];
      TotalSlack(before) + SlackOf(LedgerAfter(before), entries[|entries| - 1])
  }

  ghost predicate LongOnly(entries: seq<Entry>) {
    forall k, i :: 0 <= k <= |entries| ==> Get(LedgerAfter(entries[..k]).positions, i) >= 0
  }

  lemma {:induction false} BooksAreDrift(entries: seq<Entry>)
    ensures Books(LedgerAfter(entries), CashFlow(entries)) == Drift(entries)
    ensures Abs(Drift(entries)) <= TotalSlack(entries)
  {
    if entries == [] {
      assert Costs(EMPTY) == map[];
    } else {
      var before, last := entries[..|entries| - 1], entries[|entries| - 1];
      BooksAreDrift(before);
      var l := LedgerAfter(before);
      PostMovesBooks(l, last, CashFlow(before));
      if Counts(last) {
        RoundingBounds(HoldingOf(l, last.instrument), last.price, Signed(last.side, last.size));
      }
      hide Books, Post, Rounding, Slack;
    }
  }

  lemma {:induction false} LongOnlyDrift(entries: seq<Entry>)
    requires LongOnly(entries)
    ensures Drift(entries) >= 0
  {
    if entries != [] {
      var n := |entries| - 1;
      var before, last := entries[..n], entries[n];
      assert forall k :: 0 <= k <= n ==> before[..k] == entries[..k];
      assert LongOnly(before);
      LongOnlyDrift(before);
      if Counts(last) {
        assert entries[..n] == before;
        var h := HoldingOf(LedgerAfter(before), last.instrument);
        assert Get(LedgerAfter(entries[..n]).positions, last.instrument) >= 0;
        RoundingBounds(h, last.price, Signed(last.side, last.size));
      }
      hide LongOnly, Rounding;
    }
  }

  /** After any history in which every open position has a last price, mark-to-market profit is within the
      total slack of the true worth, and never below it when no position was ever short. */
  lemma ProfitWithinSlack(entries: seq<Entry>)
    requires Priced(LedgerAfter(entries))
    ensures
      var error := MarkToMarket(LedgerAfter(entries)) - Worth(LedgerAfter(entries), CashFlow(entries));
      error == Drift(entries) && Abs(error) <= TotalSlack(entries) && (LongOnly(entries) ==> error >= 0)
  {
    hide MarkToMarket, Worth, Books, Drift, TotalSlack, LongOnly, LedgerAfter, CashFlow, GoodLedger, Priced;
    ProfitBeyondWorth(LedgerAfter(entries), CashFlow(entries));
    BooksAreDrift(entries);
    if LongOnly(entries) {
      LongOnlyDrift(entries);
    }
  }

  /** Total size bought of an instrument: the deals on the bid side that count. */
  function TotalBought(entries: seq<Entry>, i: int): int {
    if entries == [] then 0
    else
      var e := entries[|entries| - 1];
      TotalBought(entries[..|entries| - 1], i)
        + if e.Deal? && e.size > 0 && e.instrument == i && e.side == Bid then e.size else 0
  }

  /** Total size sold of an instrument: the deals on any other side that count. */
  function TotalSold(entries: seq<Entry>, i: int): int {
    if entries == [] then 0
    else
      var e := entries[|entries| - 1];
      TotalSold(entries[..|entries| - 1], i)
        + if e.Deal? && e.size > 0 && e.instrument == i && e.side != Bid then e.size else 0
  }

  /** The last price marked for an instrument, if any. */
  function LastMark(entries: seq<Entry>, i: int): Option<int> {
    if entries == [] then None
    else
      var e := entries[|entries| - 1];
      if e.Mark? && e.instrument == i then Some(e.price) else LastMark(entries[..|entries| - 1], i)
  }

  /** After any history a position is what was bought less what was sold, and the last price is the last mark. */
  lemma {:induction false} PositionIsBoughtLessSold(entries: seq<Entry>, i: int)
    ensures Get(LedgerAfter(entries).positions, i) == TotalBought(entries, i) - TotalSold(entries, i)
    ensures i in LedgerAfter(entries).lastPrice <==> LastMark(entries, i).Some?
    ensures LastMark(entries, i).Some? ==>
      i in LedgerAfter(entries).lastPrice && LedgerAfter(entries).lastPrice[i] == LastMark(entries, i).value
  {
    if entries != [] {
      var front, e := entries[..|entries| - 1], entries[|entries| - 1];
      PositionIsBoughtLessSold(front, i);
      PostMovesPosition(LedgerAfter(front), e, i);
      hide Post, Traded;
    }
  }

  lemma PostMovesPosition(l: Ledger, e: Entry, i: int)
    ensures Get(Post(l, e).positions, i) == Get(l.positions, i) +
      if e.Deal? && e.size > 0 && e.instrument == i then (if e.side == Bid then e.size else -e.size) else 0
    ensures Post(l, e).lastPrice == if e.Mark? then l.lastPrice[e.instrument := e.price] else l.lastPrice
  {
    hide Blend, Gain;
  }

  // ---- where an average lies ----

  /** The prices of the fills that opened or extended the current position of an instrument. */
  function OpenerStep(h: Holding, openers: set<int>, price: int, signed: int): set<int> {
    var position := h.position + signed;
    if position == 0 then {}
    else if SameDirection(h.position, signed) then openers + {price}
    else if SameDirection(h.position, position) then openers
    else {price}
  }

  function Openers(entries: seq<Entry>, i: int): set<int> {
    if entries == [] then {}
    else
      var before, last := entries[..|entries| - 1], entries[|entries| - 1];
      if Counts(last) && last.instrument == i
      then OpenerStep(HoldingOf(LedgerAfter(before), i), Openers(before, i), last.price, Signed(last.side, last.size))
      else Openers(before, i)
  }

  ghost predicate Brackets(prices: set<int>, average: int) {
    (exists p :: p in prices && p <= average) && (exists q :: q in prices && average <= q)
  }

  lemma TradeBracketed(h: Holding, openers: set<int>, price: int, signed: int)
    requires signed != 0 && (h.position != 0 ==> Brackets(openers, h.average))
    ensures
      var h' := Traded(h, price, signed);
      h'.position != 0 ==> Brackets(OpenerStep(h, openers, price, signed), h'.average)
  {
    var after := OpenerStep(h, openers, price, signed);
    if SameDirection(h.position, signed) {
      var lo := if h.average <= price then h.average else price;
      BlendBetween(h, price, signed, lo, h.average + price - lo);
      var p :| p in openers && p <= h.average;
      var q :| q in openers && h.average <= q;
      assert p in after && q in after && price in after;
      hide Blend;
    } else if h.position + signed != 0 && !SameDirection(h.position, h.position + signed) {
      assert price in after;
    }
  }

  /** An average is stored exactly while the position is open, and it lies between the lowest and the highest
      price of the fills that opened or extended that position. */
  lemma {:induction false} AverageWithinOpeners(entries: seq<Entry>, i: int)
    ensures
      var l := LedgerAfter(entries);
      && (i in l.average <==> Get(l.positions, i) != 0)
      && (i in l.average ==> Brackets(Openers(entries, i), l.average[i]))
  {
    if entries != [] {
      var before, last := entries[..|entries| - 1], entries[|entries| - 1];
      AverageWithinOpeners(before, i);
      var h := HoldingOf(LedgerAfter(before), i);
      if Counts(last) && last.instrument == i {
        TradeBracketed(h, Openers(before, i), last.price, Signed(last.side, last.size));
      }
      hide Traded, OpenerStep, Brackets;
    }
  }

  // ---- the tracker ----

  lemma OneMoreVisited(all: map<int, int>, unseen: set<int>, i: int)
    requires i in unseen && i in all
    ensures Total(all - (unseen - {i})) == all[i] + Total(all - unseen)
  {
    hide Total;
    var visited := all - (unseen - {i});
    TotalRemove(visited, i);
    assert visited - {i} == all - unseen;
  }

  class Portfolio {
    var positions: map<int, int>
    var realized: int
    var lastPrice: map<int, int>
    var average: map<int, int>

    ghost function Value(): Ledger
      reads this
    {
      Ledger(positions, realized, lastPrice, average)
    }

    constructor ()
      ensures Value() == EMPTY
    {
      positions, realized, lastPrice, average := map[], 0, map[], map[];
    }

    method UpdateLastPrice(i: int, price: int)
      modifies `lastPrice
      ensures Value() == Post(old(Value()), Mark(i, price))
    {
      lastPrice := lastPrice[i := price];
    }

    method ApplyFill(i: int, side: Side, price: int, size: int)
      modifies `positions, `realized, `average
      ensures Value() == Post(old(Value()), Deal(i, side, price, size))
    {
      if size <= 0 {
        return;
      }
      var signed := if side == Bid then size else -size;
      var oldPosition, oldAverage := Get(positions, i), Get(average, i);
      var newPosition := oldPosition + signed;
      if oldPosition == 0 {
        SetOpenPosition(i, newPosition, price);
        return;
      }
      if SameDirection(oldPosition, signed) {
        var oldAbs, newAbs := Abs(oldPosition), Abs(newPosition);
        SetOpenPosition(i, newPosition, (oldAverage * oldAbs + price * size) / newAbs);
        return;
      }
      var closed := if Abs(oldPosition) < size then Abs(oldPosition) else size;
      if oldPosition > 0 {
        realized := realized + (price - oldAverage) * closed;
      } else {
        realized := realized + (oldAverage - price) * closed;
      }
      if newPosition == 0 {
        positions := positions[i := 0];
        average := average - {i};
      } else if SameDirection(oldPosition, newPosition) {
        SetOpenPosition(i, newPosition, oldAverage);
      } else {
        SetOpenPosition(i, newPosition, price);
      }
    }

    method SetOpenPosition(i: int, position: int, averagePrice: int)
      modifies `positions, `average
      ensures Value() == Put(old(Value()), i, Holding(position, averagePrice))
    {
      positions := positions[i := position];
      if position == 0 {
        average := average - {i};
      } else {
        average := average[i := averagePrice];
      }
    }

    /** Realized profit plus the unrealized profit of every instrument ever held. */
    method MarkToMarketPnl() returns (pnl: int)
      ensures pnl == MarkToMarket(Value())
    {
      var unseen := positions.Keys;
      var unrealized := 0;
      ghost var all := UnrealizedMap(Value());
      assert all - unseen == map[];
      assert Total<int>(map[]) == 0;
      hide Total, Unrealized;
      while unseen != {}
        invariant unseen <= positions.Keys
        invariant unrealized == Total(all - unseen)
        decreases |unseen|
      {
        var i :| i in unseen;
        var mine := UnrealizedFor(i);
        OneMoreVisited(all, unseen, i);
        unrealized := unrealized + mine;
        unseen := unseen - {i};
      }
      assert all - {} == all;
      pnl := realized + unrealized;
    }

    method UnrealizedFor(i: int) returns (pnl: int)
      ensures pnl == Unrealized(Value(), i)
    {
      var position := Get(positions, i);
      if position == 0 || i !in lastPrice || i !in average {
        return 0;
      }
      var last, avg := lastPrice[i], average[i];
      if position > 0 {
        return (last - avg) * position;
      }
      return (avg - last) * Abs(position);
    }
  }
}
