/** Fill simulation against the historical book, less what the engine already consumed. The program
    recomputes the visible ladder after every fill; the simple form walks the ladder once. */
module FillSimulators {
  import opened Domain
  import opened Totals
  import opened Ladders
  import opened EngineViews

  datatype Request = Request(
    engineId: nat, instrumentId: nat, side: Side, limitPrice: int, size: nat, timestamp: int)

  datatype SimResult = SimResult(syntheticId: nat, requested: nat, filled: nat, remaining: nat, fills: seq<Level>)

  predicate ValidRequest(r: Request) {
    r.instrumentId != 0 && ActiveSide(r.side) && r.limitPrice != UNDEFINED_PRICE && r.size > 0
  }

  /** The book side an order takes liquidity from. */
  function Opposite(side: Side): Side {
    if side == Bid then Ask else Bid
  }

  predicate Crosses(side: Side, limit: int, price: int) {
    if side == Bid then price <= limit else price >= limit
  }

  /** What of the historical levels the engine still sees. */
  function Visible(hist: Levels, consumed: Levels): (v: Levels)
    ensures forall p :: p in v ==> v[p] > 0
  {
    map p | p in hist && hist[p] > At(consumed, p) :: hist[p] - At(consumed, p)
  }

  /** One best-first walk of a ladder. */
  function Walk(ladder: seq<Level>, side: Side, limit: int, wanted: nat): seq<Level> {
    if wanted == 0 || ladder == [] || !Crosses(side, limit, ladder[0].price) then []
    else
      var fill := Min(wanted, ladder[0].size);
      [Level(ladder[0].price, fill)] + Walk(ladder[1..], side, limit, wanted - fill)
  }

  function Sum(fills: seq<Level>): nat {
    if fills == [] then 0 else fills[0].size + Sum(fills[1..])
  }

  /** What a walk is: one fill per level from the best on, each within the limit and no larger than its
      level, all but the last taking the level whole; never more than wanted in all; and when something
      stays unfilled, every reached level is gone and the next, if any, is out of reach. */
  ghost predicate IsWalk(fills: seq<Level>, ladder: seq<Level>, side: Side, limit: int, wanted: nat) {
    && |fills| <= |ladder|
    && (forall k :: 0 <= k < |fills| ==>
          && fills[k].price == ladder[k].price && Crosses(side, limit, fills[k].price)
          && 0 < fills[k].size <= ladder[k].size)
    && (forall k :: 0 <= k < |fills| - 1 ==> fills[k].size == ladder[k].size)
    && Sum(fills) <= wanted
    && (Sum(fills) < wanted ==>
          && (fills != [] ==> fills[|fills| - 1].size == ladder[|fills| - 1].size)
          && (|fills| < |ladder| ==> !Crosses(side, limit, ladder[|fills|].price)))
  }

  lemma {:induction false} WalkMeaning(ladder: seq<Level>, side: Side, limit: int, wanted: nat)
    requires forall k :: 0 <= k < |ladder| ==> ladder[k].size > 0
    ensures IsWalk(Walk(ladder, side, limit, wanted), ladder, side, limit, wanted)
  {
    if wanted != 0 && ladder != [] && Crosses(side, limit, ladder[0].price) {
      var fill := Min(wanted, ladder[0].size);
      WalkMeaning(ladder[1..], side, limit, wanted - fill);
      WalkCons(Walk(ladder[1..], side, limit, wanted - fill), ladder, side, limit, wanted);
    }
  }

  lemma WalkCons(rest: seq<Level>, ladder: seq<Level>, side: Side, limit: int, wanted: nat)
    requires wanted > 0 && ladder != [] && ladder[0].size > 0 && Crosses(side, limit, ladder[0].price)
    requires IsWalk(rest, ladder[1..], side, limit, wanted - Min(wanted, ladder[0].size))
    requires wanted <= ladder[0].size ==> rest == []
    ensures IsWalk([Level(ladder[0].price, Min(wanted, ladder[0].size))] + rest, ladder, side, limit, wanted)
  {
    var fills := [Level(ladder[0].price, Min(wanted, ladder[0].size))] + rest;
    assert fills[1..] == rest;
    forall k | 1 <= k < |fills|
      ensures fills[k] == rest[k - 1] && ladder[k] == ladder[1..][k - 1]
    {
    }
    assert |fills| < |ladder| ==> ladder[|fills|] == ladder[1..][|rest|];
    assert |fills| <= |ladder|;
  }

  /** Fills of a walk over a ladder strictly worsen in price. */
  lemma WalkWorsens(ladder: seq<Level>, side: Side, limit: int, wanted: nat)
    requires Worsening(Opposite(side), ladder) && forall k :: 0 <= k < |ladder| ==> ladder[k].size > 0
    ensures Worsening(Opposite(side), Walk(ladder, side, limit, wanted))
  {
    WalkMeaning(ladder, side, limit, wanted);
  }

  /** The levels within the limit. */
  function InReach(visible: Levels, side: Side, limit: int): map<int, int> {
    map p | p in visible && visible[p] > 0 && Crosses(side, limit, p) :: visible[p]
  }

  ghost function CrossingVolume(visible: Levels, side: Side, limit: int): (volume: nat)
    ensures volume == 0 <==> InReach(visible, side, limit) == map[]
  {
    TotalPositive(InReach(visible, side, limit));
    Total(InReach(visible, side, limit))
  }

  /** The best level counts first; when it is out of reach, so are all others. */
  lemma BestInReach(visible: Levels, side: Side, limit: int, p: int)
    requires IsBest(Opposite(side), visible.Keys, p) && ActiveSide(side) && visible[p] > 0
    ensures CrossingVolume(visible, side, limit)
         == if Crosses(side, limit, p) then visible[p] + CrossingVolume(visible - {p}, side, limit) else 0
  {
    if Crosses(side, limit, p) {
      assert InReach(visible - {p}, side, limit) == InReach(visible, side, limit) - {p};
      TotalRemove(InReach(visible, side, limit), p);
    } else {
      assert InReach(visible, side, limit) == map[];
    }
  }

  ghost predicate Positive(levels: Levels) {
    forall p :: p in levels ==> levels[p] > 0
  }

  /** A walk takes what is within the limit, up to what is wanted. */
  lemma {:induction false} WalkTakes(visible: Levels, ladder: seq<Level>, side: Side, limit: int, wanted: nat)
    requires IsLadder(Opposite(side), ladder, visible) && ActiveSide(side) && Positive(visible)
    ensures Sum(Walk(ladder, side, limit, wanted)) == Min(CrossingVolume(visible, side, limit), wanted)
    decreases |ladder|
  {
    WalkSum(ladder, side, limit, wanted);
    if visible == map[] {
      HeadListed(ladder, visible);
      assert InReach(visible, side, limit) == map[];
    } else {
      var p := Best(Opposite(side), visible.Keys);
      assert visible[p] > 0 && Positive(visible - {p});
      BestInReach(visible, side, limit, p);
      hide Positive, CrossingVolume, IsLadder, IsBest, Crosses, Walk, Sum, InReach;
      LadderHead(Opposite(side), ladder, visible);
      if Crosses(side, limit, p) && wanted > 0 {
        WalkTakes(visible - {p}, ladder[1..], side, limit, wanted - Min(wanted, visible[p]));
      }
    }
  }

  lemma WalkSum(ladder: seq<Level>, side: Side, limit: int, wanted: nat)
    ensures Sum(Walk(ladder, side, limit, wanted)) ==
      if ladder == [] || wanted == 0 || !Crosses(side, limit, ladder[0].price) then 0
      else
        var fill := Min(wanted, ladder[0].size);
        fill + Sum(Walk(ladder[1..], side, limit, wanted - fill))
  {
    if ladder != [] && wanted > 0 && Crosses(side, limit, ladder[0].price) {
      var fill := Min(wanted, ladder[0].size);
      var rest := Walk(ladder[1..], side, limit, wanted - fill);
      assert ([Level(ladder[0].price, fill)] + rest)[1..] == rest;
    }
  }

  /** Consumption after a list of fills. */
  function ConsumeFills(v: View, i: nat, bookSide: Side, fills: seq<Level>): View {
    if fills == [] then v
    else
      var n := |fills| - 1;
      ConsumeAt(ConsumeFills(v, i, bookSide, fills[..n]), i, bookSide, fills[n].price, fills[n].size)
  }

  /** Taking the best level whole leaves the rest of the ladder visible. */
  lemma ConsumeBest(hist: Levels, consumed: Levels, p: int, f: nat)
    requires p in Visible(hist, consumed) && f == Visible(hist, consumed)[p]
    ensures Visible(hist, AddVolume(consumed, p, f)) == Visible(hist, consumed) - {p}
  {
  }

  // ---- the visible ladder as the program builds it ----

  /** The levels a list stands for; with distinct prices the order does not matter. */
  ghost function FromList(l: seq<Level>): Levels {
    if l == [] then map[] else FromList(l[..|l| - 1])[l[|l| - 1].price := l[|l| - 1].size]
  }

  lemma {:induction false} FromListKeys(l: seq<Level>, p: int)
    ensures p in FromList(l) <==> exists j :: 0 <= j < |l| && l[j].price == p
  {
    if l != [] {
      FromListKeys(l[..|l| - 1], p);
    }
  }

  lemma {:induction false} FromListIs(l: seq<Level>, side: Side, k: nat)
    requires Worsening(side, l) && k < |l|
    ensures l[k].price in FromList(l) && FromList(l)[l[k].price] == l[k].size
  {
    var n := |l| - 1;
    if k < n {
      FromListIs(l[..n], side, k);
    }
  }

  /** Listing an ordered map and rebuilding it gives the map back. */
  lemma LadderRoundTrip(side: Side, levels: Levels)
    ensures FromList(Ladder(side, levels)) == levels
  {
    var l := Ladder(side, levels);
    forall p
      ensures p in FromList(l) <==> p in levels
      ensures p in levels ==> p in FromList(l) && FromList(l)[p] == levels[p]
    {
      FromListKeys(l, p);
      if p in levels {
        var k :| 0 <= k < |l| && l[k] == Level(p, levels[p]);
        FromListIs(l, side, k);
      }
    }
  }

  lemma NewPrice(l: seq<Level>, side: Side, k: nat)
    requires Worsening(side, l) && k < |l|
    ensures l[k].price !in FromList(l[..k])
  {
    FromListKeys(l[..k], l[k].price);
  }

  lemma VisibleGrows(h: Levels, p: int, size: nat)
    requires p !in h
    ensures Visible(h[p := size], map[])
         == if size > 0 then AddVolume(Visible(h, map[]), p, size) else Visible(h, map[])
  {
  }

  lemma VisibleShrinks(h: Levels, c: Levels, p: int, size: nat)
    requires p !in c
    ensures Visible(h, c[p := size]) == RemoveVolume(Visible(h, c), p, size)
  {
  }

  /** Add the historical levels one by one, then remove the consumed ones one by one. */
  method VisibleHistorical(side: Side, hist: seq<Level>, consumed: seq<Level>) returns (levels: Levels)
    requires Worsening(side, hist) && Worsening(side, consumed)
    ensures levels == Visible(FromList(hist), FromList(consumed))
  {
    hide Visible, AddVolume, RemoveVolume;
    levels := map[];
    assert levels == Visible(FromList(hist[..0]), map[]) by {
      NothingVisible();
    }
    for k := 0 to |hist|
      invariant levels == Visible(FromList(hist[..k]), map[])
    {
      NewPrice(hist, side, k);
      assert hist[..k + 1][..k] == hist[..k];
      VisibleGrows(FromList(hist[..k]), hist[k].price, hist[k].size);
      if hist[k].size > 0 {
        levels := AddVolume(levels, hist[k].price, hist[k].size);
      }
    }
    assert hist[..|hist|] == hist && consumed[..0] == [];
    for k := 0 to |consumed|
      invariant levels == Visible(FromList(hist), FromList(consumed[..k]))
    {
      NewPrice(consumed, side, k);
      assert consumed[..k + 1][..k] == consumed[..k];
      VisibleShrinks(FromList(hist), FromList(consumed[..k]), consumed[k].price, consumed[k].size);
      levels := RemoveVolume(levels, consumed[k].price, consumed[k].size);
    }
    assert consumed[..|consumed|] == consumed;
  }

  lemma NothingVisible()
    ensures Visible(map[], map[]) == map[]
  {
  }

  /** What the engine's own view shows on one side: the visible historical levels plus its own orders. */
  ghost function VisibleWithOwn(hist: Levels, consumed: Levels, synthetic: Levels, price: int): nat {
    At(Visible(hist, consumed), price) + At(synthetic, price)
  }

  /** The ladder a strategy sees: historical minus consumed floored at zero, plus synthetic, price by price. */
  method VisibleLadder(side: Side, hist: seq<Level>, consumed: seq<Level>, synthetic: seq<Level>)
    returns (levels: Levels)
    requires Worsening(side, hist) && Worsening(side, consumed) && Worsening(side, synthetic)
    ensures forall p :: At(levels, p) == VisibleWithOwn(FromList(hist), FromList(consumed), FromList(synthetic), p)
    ensures forall p :: p in levels ==> levels[p] > 0
  {
    levels := VisibleHistorical(side, hist, consumed);
    ghost var base := levels;
    for k := 0 to |synthetic|
      invariant forall p :: At(levels, p) == At(base, p) + At(FromList(synthetic[..k]), p)
      invariant forall p :: p in levels ==> levels[p] > 0
    {
      NewPrice(synthetic, side, k);
      assert synthetic[..k + 1][..k] == synthetic[..k];
      if synthetic[k].size > 0 {
        levels := AddVolume(levels, synthetic[k].price, synthetic[k].size);
      }
    }
    assert synthetic[..|synthetic|] == synthetic;
  }

  // ---- submitting an order ----

  lemma {:induction false} SumAppend(fills: seq<Level>, last: Level)
    ensures Sum(fills + [last]) == Sum(fills) + last.size
  {
    if fills == [] {
      assert [last][1..] == [];
    } else {
      assert (fills + [last])[1..] == fills[1..] + [last];
      SumAppend(fills[1..], last);
    }
  }

  /** The ladder the order meets. */
  ghost function Reach(v: View, hist: Levels, r: Request): seq<Level> {
    Ladder(Opposite(r.side), Visible(hist, ConsumedAt(v, r.instrumentId, Opposite(r.side))))
  }

  ghost function SimFills(v: View, hist: Levels, r: Request): seq<Level> {
    Walk(Reach(v, hist, r), r.side, r.limitPrice, r.size)
  }

  /** The remainder rests as an own order under the reserved id. */
  function Rest(v: View, r: Request, id: nat, remaining: nat): View {
    if remaining == 0 then v
    else v.(own := v.own[id := SynOrder(r.instrumentId, r.side, r.limitPrice, remaining, r.timestamp)])
  }

  ghost function SimResultOf(v: View, hist: Levels, r: Request): SimResult {
    var fills := SimFills(v, hist, r);
    SimBounded(v, hist, r);
    SimResult(v.nextId, r.size, Sum(fills), r.size - Sum(fills), fills)
  }

  ghost function SimView(v: View, hist: Levels, r: Request): View {
    var fills := SimFills(v, hist, r);
    SimBounded(v, hist, r);
    var consumed := ConsumeFills(v.(nextId := v.nextId + 1), r.instrumentId, Opposite(r.side), fills);
    Rest(consumed, r, v.nextId, r.size - Sum(fills))
  }

  /** Every fill is a visible level, within the limit; they worsen strictly and never exceed the request,
      and whatever stays unfilled meets no level it could have taken. */
  lemma SimBounded(v: View, hist: Levels, r: Request)
    ensures IsWalk(SimFills(v, hist, r), Reach(v, hist, r), r.side, r.limitPrice, r.size)
    ensures Worsening(Opposite(r.side), SimFills(v, hist, r))
    ensures Sum(SimFills(v, hist, r)) <= r.size
  {
    var visible := Visible(hist, ConsumedAt(v, r.instrumentId, Opposite(r.side)));
    var ladder := Reach(v, hist, r);
    forall k | 0 <= k < |ladder|
      ensures ladder[k].size > 0
    {
      assert visible[ladder[k].price] == ladder[k].size;
    }
    WalkMeaning(ladder, r.side, r.limitPrice, r.size);
    WalkWorsens(ladder, r.side, r.limitPrice, r.size);
  }

  /** One pass of the loop: the best visible level is the head of what remains to be walked. */
  lemma TakeBest(v: View, hist: Levels, r: Request, remaining: nat)
    requires ValidRequest(r) && 0 < remaining
    ensures
      var side := Opposite(r.side);
      var visible := Visible(hist, ConsumedAt(v, r.instrumentId, side));
      var ladder := Ladder(side, visible);
      if visible == map[] || !Crosses(r.side, r.limitPrice, Best(side, visible.Keys)) then
        Walk(ladder, r.side, r.limitPrice, remaining) == []
      else
        var p := Best(side, visible.Keys);
        var f := Min(remaining, visible[p]);
        var v' := ConsumeAt(v, r.instrumentId, side, p, f);
        var ladder' := Ladder(side, Visible(hist, ConsumedAt(v', r.instrumentId, side)));
        && f > 0
        && Walk(ladder, r.side, r.limitPrice, remaining)
           == [Level(p, f)] + Walk(ladder', r.side, r.limitPrice, remaining - f)
  {
    var side, i := Opposite(r.side), r.instrumentId;
    var consumed := ConsumedAt(v, i, side);
    var visible := Visible(hist, consumed);
    var ladder := Ladder(side, visible);
    if visible == map[] {
      HeadListed(ladder, visible);
    } else {
      LadderHead(side, ladder, visible);
      var p := Best(side, visible.Keys);
      var f := Min(remaining, visible[p]);
      if Crosses(r.side, r.limitPrice, p) && f == visible[p] {
        var v' := ConsumeAt(v, i, side, p, f);
        ConsumeFound(v, i, side, p, f);
        ConsumeBest(hist, consumed, p, f);
        var rest := Ladder(side, visible - {p});
        LadderUnique(side, ladder[1..], rest, visible - {p});
        assert Ladder(side, Visible(hist, ConsumedAt(v', i, side))) == ladder[1..];
      }
      hide IsLadder, IsBest, Visible, ConsumeAt, ConsumedAt;
    }
  }

  lemma ConsumeFound(v: View, i: nat, side: Side, price: int, size: nat)
    requires i != 0 && size > 0 && ActiveSide(side)
    ensures ConsumedAt(ConsumeAt(v, i, side, price, size), i, side) == AddVolume(ConsumedAt(v, i, side), price, size)
  {
  }
}
