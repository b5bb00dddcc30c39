/** Price levels of one side of a book, best price first. A `map<int, nat>` stands for the ordered
    map the program keeps: bids iterate from the highest price, asks from the lowest. */
module Ladders {
  import opened Domain

  type Levels = map<int, nat>

  datatype Level = Level(price: int, size: nat)

  /** On the given side, price p is reached strictly before price q. */
  predicate Better(side: Side, p: int, q: int) {
    if side == Bid then p > q else p < q
  }

  ghost predicate IsBest(side: Side, prices: set<int>, p: int) {
    p in prices && forall q :: q in prices && q != p ==> Better(side, p, q)
  }

  lemma HasElement(prices: set<int>)
    ensures prices == {} || exists p :: p in prices
  {
    if forall p :: p !in prices {
      assert prices == {};
    }
  }

  lemma {:induction false} BestExists(side: Side, prices: set<int>)
    requires prices != {}
    ensures exists p :: IsBest(side, prices, p)
    decreases |prices|
  {
    HasElement(prices);
    var p :| p in prices;
    var rest := prices - {p};
    assert forall q :: q in prices && q != p ==> q in rest;
    if rest == {} {
      assert IsBest(side, prices, p);
    } else {
      BestExists(side, rest);
      var q :| IsBest(side, rest, q);
      assert IsBest(side, prices, if Better(side, p, q) then p else q);
    }
  }

  /** The first key of the ordered map. */
  function Best(side: Side, prices: set<int>): (p: int)
    requires prices != {}
    ensures IsBest(side, prices, p)
  {
    BestExists(side, prices);
    var p :| p in prices && forall q :: q in prices && q != p ==> Better(side, p, q);
    p
  }

  ghost predicate Worsening(side: Side, l: seq<Level>) {
    forall i, j :: 0 <= i < j < |l| ==> Better(side, l[i].price, l[j].price)
  }

  /** The list holds exactly the given levels. */
  ghost predicate Lists(l: seq<Level>, levels: Levels) {
    && (forall i :: 0 <= i < |l| ==> l[i].price in levels && levels[l[i].price] == l[i].size)
    && (forall p :: p in levels ==> Level(p, levels[p]) in l)
  }

  ghost predicate IsLadder(side: Side, l: seq<Level>, levels: Levels) {
    Worsening(side, l) && Lists(l, levels)
  }

  lemma HeadListed(l: seq<Level>, levels: Levels)
    requires Lists(l, levels)
    ensures l == [] || l[0].price in levels
  {
  }

  lemma LadderCons(side: Side, p: int, rest: seq<Level>, levels: Levels)
    requires IsBest(side, levels.Keys, p) && IsLadder(side, rest, levels - {p})
    ensures IsLadder(side, [Level(p, levels[p])] + rest, levels)
  {
    var l := [Level(p, levels[p])] + rest;
    ListsCons(rest, levels, p);
    forall i, j | 0 <= i < j < |l|
      ensures Better(side, l[i].price, l[j].price)
    {
      assert l[j] == rest[j - 1];
      assert l[j].price in levels - {p};
      if i > 0 {
        assert l[i] == rest[i - 1];
      }
    }
  }

  lemma ListsCons(rest: seq<Level>, levels: Levels, p: int)
    requires p in levels && Lists(rest, levels - {p})
    ensures Lists([Level(p, levels[p])] + rest, levels)
  {
    var l := [Level(p, levels[p])] + rest;
    forall q | q in levels
      ensures Level(q, levels[q]) in l
    {
      if q != p {
        assert q in levels - {p};
      } else {
        assert l[0] == Level(q, levels[q]);
      }
    }
  }

  /** The best price heads the ladder, and the tail is the ladder of the other prices. */
  lemma LadderHead(side: Side, l: seq<Level>, levels: Levels)
    requires IsLadder(side, l, levels) && levels != map[]
    ensures |l| > 0 && l[0] == Level(Best(side, levels.Keys), levels[Best(side, levels.Keys)])
    ensures IsLadder(side, l[1..], levels - {l[0].price})
  {
    var p := Best(side, levels.Keys);
    var k :| 0 <= k < |l| && l[k] == Level(p, levels[p]);
    assert l[0].price in levels.Keys;
    assert k == 0;
    forall q | q in levels - {p}
      ensures Level(q, levels[q]) in l[1..]
    {
      var j :| 0 <= j < |l| && l[j] == Level(q, levels[q]);
      assert l[1..][j - 1] == l[j];
    }
  }

  lemma {:induction false} LadderExists(side: Side, levels: Levels)
    ensures exists l :: IsLadder(side, l, levels)
    decreases |levels|
  {
    if levels == map[] {
      assert IsLadder(side, [], levels);
    } else {
      var p := Best(side, levels.Keys);
      assert (levels - {p}).Keys == levels.Keys - {p};
      LadderExists(side, levels - {p});
      var rest :| IsLadder(side, rest, levels - {p});
      LadderCons(side, p, rest, levels);
    }
  }

  /** Iterating the whole ordered map. */
  ghost function Ladder(side: Side, levels: Levels): (l: seq<Level>)
    ensures IsLadder(side, l, levels)
  {
    LadderExists(side, levels);
    var l :| IsLadder(side, l, levels);
    l
  }

  /** Price order leaves no freedom: two ladders of the same levels are equal. */
  lemma {:induction false} LadderUnique(side: Side, l: seq<Level>, m: seq<Level>, levels: Levels)
    requires IsLadder(side, l, levels) && IsLadder(side, m, levels)
    ensures l == m && |l| == |levels|
    decreases |l|
  {
    if levels == map[] {
      HeadListed(l, levels);
      HeadListed(m, levels);
    } else {
      LadderHead(side, l, levels);
      LadderHead(side, m, levels);
      LadderUnique(side, l[1..], m[1..], levels - {l[0].price});
      assert (levels - {l[0].price}).Keys == levels.Keys - {l[0].price};
      assert l == [l[0]] + l[1..] && m == [m[0]] + m[1..];
    }
  }

  function At(levels: Levels, price: int): nat {
    if price in levels then levels[price] else 0
  }

  /** `levels[price] += size`. */
  function AddVolume(levels: Levels, price: int, size: nat): Levels {
    levels[price := At(levels, price) + size]
  }

  /** Erase the level when at most `size` rests there, otherwise subtract. */
  function RemoveVolume(levels: Levels, price: int, size: nat): Levels {
    if price !in levels then levels
    else if levels[price] <= size then levels - {price}
    else levels[price := levels[price] - size]
  }

  /** Copying at most `depth` levels in price order, as every depth query does. */
  method TopLevels(side: Side, levels: Levels, depth: nat) returns (top: seq<Level>)
    ensures |top| == if depth < |levels| then depth else |levels|
    ensures top <= Ladder(side, levels)
  {
    top := [];
    var rest := levels;
    ghost var ladder := Ladder(side, levels);
    LadderUnique(side, ladder, ladder, levels);
    hide IsLadder;
    while |top| < depth && rest != map[]
      invariant |top| <= depth && |top| <= |levels|
      invariant top == ladder[..|top|] && IsLadder(side, ladder[|top|..], rest)
      decreases depth - |top|
    {
      LadderHead(side, ladder[|top|..], rest);
      var p := Best(side, rest.Keys);
      top := top + [Level(p, rest[p])];
      rest := rest - {p};
      assert ladder[|top| - 1..][1..] == ladder[|top|..];
    }
    if rest == map[] {
      LadderUnique(side, ladder[|top|..], ladder[|top|..], rest);
    }
  }
}
