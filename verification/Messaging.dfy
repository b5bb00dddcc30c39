/** Publisher, subscribers and gap detector, from publication to detection. Sequence numbers are 64-bit. */
module Messaging {
  import opened Channels

  const SEQ_LIMIT: nat := 0x1_0000_0000_0000_0000

  datatype Kind = BookUpdateKind | BookSnapshotKind | TradeKind

  datatype Message = Message(kind: Kind, instrumentId: nat, seqNo: nat, payload: int)

  /** Incrementing wraps at the top. */
  function NextSeq(last: nat): nat {
    if last + 1 == SEQ_LIMIT then 0 else last + 1
  }

  /** The number of the k-th message of an instrument. */
  function Number(k: nat): nat {
    k % SEQ_LIMIT
  }

  lemma NextNumber(k: nat)
    ensures NextSeq(Number(k)) == Number(k + 1)
  {
    var q, r := k / SEQ_LIMIT, k % SEQ_LIMIT;
    assert k == q * SEQ_LIMIT + r;
    if r + 1 == SEQ_LIMIT {
      assert k + 1 == (q + 1) * SEQ_LIMIT;
    }
  }

  lemma SmallNumber(k: nat)
    requires k < SEQ_LIMIT
    ensures Number(k) == k
  {
  }

  // ---- the publisher ----

  datatype Subscriber = Subscriber(id: nat, queue: Channel<Message>)

  datatype Publisher = Publisher(nextId: nat, lastSeq: map<nat, nat>, subscribers: map<nat, seq<Subscriber>>)

  function LastSeq(p: Publisher, i: nat): nat {
    if i in p.lastSeq then p.lastSeq[i] else 0
  }

  function SubscribersOf(p: Publisher, i: nat): seq<Subscriber> {
    if i in p.subscribers then p.subscribers[i] else []
  }

  function Subscribe(p: Publisher, i: nat, batch: nat): Publisher {
    Publisher(p.nextId + 1, p.lastSeq,
              p.subscribers[i := SubscribersOf(p, i) + [Subscriber(p.nextId, Empty(batch))]])
  }

  function PushAll(subs: seq<Subscriber>, m: Message): seq<Subscriber> {
    seq(|subs|, j requires 0 <= j < |subs| => subs[j].(queue := subs[j].queue.Push(m)))
  }

  function FlushAll(subs: seq<Subscriber>): seq<Subscriber> {
    seq(|subs|, j requires 0 <= j < |subs| => subs[j].(queue := subs[j].queue.Flush()))
  }

  function Publish(p: Publisher, kind: Kind, i: nat, payload: int): Publisher {
    var seqNo := NextSeq(LastSeq(p, i));
    var m := Message(kind, i, seqNo, payload);
    Publisher(p.nextId, p.lastSeq[i := seqNo],
              if i in p.subscribers then p.subscribers[i := PushAll(p.subscribers[i], m)] else p.subscribers)
  }

  function Flush(p: Publisher): Publisher {
    p.(subscribers := map i | i in p.subscribers :: FlushAll(p.subscribers[i]))
  }

  /** A subscriber takes its next message, if one is visible. */
  function Take(p: Publisher, i: nat, j: nat): Publisher {
    var subs := SubscribersOf(p, i);
    if j < |subs| && subs[j].queue.CanPop()
    then p.(subscribers := p.subscribers[i := subs[j := subs[j].(queue := subs[j].queue.Pop())]])
    else p
  }

  datatype Step =
    | SubscribeStep(i: nat, batch: nat)
    | PublishStep(kind: Kind, i: nat, payload: int)
    | FlushStep
    | TakeStep(i: nat, j: nat)

  function Next(p: Publisher, step: Step): Publisher {
    match step
    case SubscribeStep(i, batch) => if batch > 0 then Subscribe(p, i, batch) else p
    case PublishStep(kind, i, payload) => Publish(p, kind, i, payload)
    case FlushStep => Flush(p)
    case TakeStep(i, j) => Take(p, i, j)
  }

  function Run(steps: seq<Step>): Publisher {
    if steps == [] then Publisher(1, map[], map[]) else Next(Run(steps[..|steps| - 1]), steps[|steps| - 1])
  }

  /** Everything published on an instrument, numbered from one. */
  function Published(steps: seq<Step>, i: nat): seq<Message> {
    if steps == [] then []
    else
      var before, last := Published(steps[..|steps| - 1], i), steps[|steps| - 1];
      if last.PublishStep? && last.i == i
      then before + [Message(last.kind, i, Number(|before| + 1), last.payload)]
      else before
  }

  /** For each subscriber of an instrument, how much had been published there when it joined. */
  function Joins(steps: seq<Step>, i: nat): seq<nat> {
    if steps == [] then []
    else
      var before, last := Joins(steps[..|steps| - 1], i), steps[|steps| - 1];
      if last.SubscribeStep? && last.i == i && last.batch > 0
      then before + [|Published(steps[..|steps| - 1], i)|]
      else before
  }

  /** A subscriber that joined after n publications was sent exactly the later ones. */
  ghost predicate Follows(s: Subscriber, published: seq<Message>, n: nat) {
    s.queue.Valid() && n <= |published| && s.queue.pushed == published[n..]
  }

  ghost predicate AllFollow(subs: seq<Subscriber>, published: seq<Message>, joins: seq<nat>) {
    && |subs| == |joins|
    && (forall j :: 0 <= j < |subs| ==> Follows(subs[j], published, joins[j]))
  }

  lemma PushFollows(subs: seq<Subscriber>, published: seq<Message>, joins: seq<nat>, m: Message)
    requires AllFollow(subs, published, joins)
    ensures AllFollow(PushAll(subs, m), published + [m], joins)
  {
    var subs' := PushAll(subs, m);
    forall j | 0 <= j < |subs'|
      ensures Follows(subs'[j], published + [m], joins[j])
    {
      assert Follows(subs[j], published, joins[j]);
      assert (published + [m])[joins[j]..] == published[joins[j]..] + [m];
    }
  }

  lemma SubscriberSteps(subs: seq<Subscriber>, published: seq<Message>, joins: seq<nat>, id: nat, batch: nat, j: nat)
    requires AllFollow(subs, published, joins) && batch > 0
    ensures AllFollow(FlushAll(subs), published, joins)
    ensures AllFollow(subs + [Subscriber(id, Empty(batch))], published, joins + [|published|])
    ensures j < |subs| && subs[j].queue.CanPop() ==>
      AllFollow(subs[j := subs[j].(queue := subs[j].queue.Pop())], published, joins)
  {
  }

  /** What a step adds to the publications of an instrument, and to its list of joins. */
  function NewlyPublished(step: Step, i: nat, count: nat): seq<Message> {
    if step.PublishStep? && step.i == i then [Message(step.kind, i, Number(count + 1), step.payload)] else []
  }

  function NewlyJoined(step: Step, i: nat, count: nat): seq<nat> {
    if step.SubscribeStep? && step.i == i && step.batch > 0 then [count] else []
  }

  /** What a step makes of an instrument's subscribers. */
  function SubscribersAfter(p: Publisher, step: Step, i: nat): seq<Subscriber> {
    var subs := SubscribersOf(p, i);
    match step
    case SubscribeStep(x, batch) =>
      if x == i && batch > 0 then subs + [Subscriber(p.nextId, Empty(batch))] else subs
    case PublishStep(kind, x, payload) =>
      if x == i then PushAll(subs, Message(kind, i, NextSeq(LastSeq(p, i)), payload)) else subs
    case FlushStep => FlushAll(subs)
    case TakeStep(x, j) =>
      if x == i && j < |subs| && subs[j].queue.CanPop()
      then subs[j := subs[j].(queue := subs[j].queue.Pop())] else subs
  }

  lemma NextSubscribers(p: Publisher, step: Step, i: nat)
    ensures SubscribersOf(Next(p, step), i) == SubscribersAfter(p, step, i)
    ensures LastSeq(Next(p, step), i)
         == if step.PublishStep? && step.i == i then NextSeq(LastSeq(p, i)) else LastSeq(p, i)
  {
  }

  lemma NextFollows(p: Publisher, step: Step, i: nat, published: seq<Message>, joins: seq<nat>)
    requires AllFollow(SubscribersOf(p, i), published, joins) && LastSeq(p, i) == Number(|published|)
    ensures
      var p', published' := Next(p, step), published + NewlyPublished(step, i, |published|);
      && AllFollow(SubscribersOf(p', i), published', joins + NewlyJoined(step, i, |published|))
      && LastSeq(p', i) == Number(|published'|)
  {
    hide AllFollow, Number, NextSeq, PushAll, FlushAll, Next, SubscribersOf, LastSeq;
    NextSubscribers(p, step, i);
    var subs := SubscribersOf(p, i);
    var batch := if step.SubscribeStep? && step.batch > 0 then step.batch else 1;
    SubscriberSteps(subs, published, joins, p.nextId, batch, if step.TakeStep? then step.j else 0);
    assert published + [] == published && joins + [] == joins;
    if step.PublishStep? && step.i == i {
      NextNumber(|published|);
      PushFollows(subs, published, joins, Message(step.kind, i, NextSeq(LastSeq(p, i)), step.payload));
    }
  }

  /** Whatever the interleaving of subscribing, publishing, flushing and reading. */
  lemma {:induction false} EverySubscriberFollows(steps: seq<Step>, i: nat)
    ensures AllFollow(SubscribersOf(Run(steps), i), Published(steps, i), Joins(steps, i))
    ensures LastSeq(Run(steps), i) == Number(|Published(steps, i)|)
  {
    if steps == [] {
      SmallNumber(0);
      hide Number, NextSeq;
    } else {
      var before, last := steps[..|steps| - 1], steps[|steps| - 1];
      hide AllFollow, Number, Next, SubscribersOf, LastSeq;
      EverySubscriberFollows(before, i);
      var published, joins := Published(before, i), Joins(before, i);
      NextFollows(Run(before), last, i, published, joins);
      assert published + [] == published && joins + [] == joins;
      assert Published(steps, i) == published + NewlyPublished(last, i, |published|);
      assert Joins(steps, i) == joins + NewlyJoined(last, i, |published|);
    }
  }

  lemma {:induction false} PublishedNumbers(steps: seq<Step>, i: nat, k: nat)
    requires k < |Published(steps, i)|
    ensures Published(steps, i)[k].instrumentId == i && Published(steps, i)[k].seqNo == Number(k + 1)
  {
    var before := steps[..|steps| - 1];
    if k < |Published(before, i)| {
      PublishedNumbers(before, i, k);
    }
  }

  /** After a flush every subscriber can see everything published since it joined; draining its queue then hands
      over exactly that. */
  lemma FlushShowsAll(steps: seq<Step>, i: nat, j: nat)
    requires j < |Joins(steps, i)|
    ensures
      var p := Run(steps + [FlushStep]);
      && j < |SubscribersOf(p, i)| && Joins(steps, i)[j] <= |Published(steps, i)|
      && var queue := SubscribersOf(p, i)[j].queue;
         && queue.Valid() && queue.visible == |queue.pushed|
         && queue.pushed == Published(steps, i)[Joins(steps, i)[j]..]
  {
    var all := steps + [FlushStep];
    assert all[..|steps|] == steps;
    EverySubscriberFollows(steps, i);
    EverySubscriberFollows(all, i);
    assert Published(all, i) == Published(steps, i) && Joins(all, i) == Joins(steps, i);
    assert Follows(SubscribersOf(Run(all), i)[j], Published(all, i), Joins(all, i)[j]);
    hide AllFollow, Number, Published, Joins;
  }

  /** The id of a subscriber, zero when there is none. */
  function IdAt(p: Publisher, i: nat, j: nat): nat {
    var subs := SubscribersOf(p, i);
    if j < |subs| then subs[j].id else 0
  }

  /** Every subscriber of any instrument has an id of its own, handed out in increasing order. */
  ghost predicate OwnIds(p: Publisher) {
    && (forall i: nat, j: nat :: IdAt(p, i, j) < p.nextId && (IdAt(p, i, j) == 0 <==> j >= |SubscribersOf(p, i)|))
    && (forall i: nat, j: nat, i': nat, j': nat ::
          IdAt(p, i, j) == IdAt(p, i', j') && IdAt(p, i, j) != 0 ==> i == i' && j == j')
  }

  lemma {:induction false} IdsAreOwn(steps: seq<Step>)
    ensures OwnIds(Run(steps)) && Run(steps).nextId > 0
  {
    if steps != [] {
      IdsAreOwn(steps[..|steps| - 1]);
      NextKeepsIds(Run(steps[..|steps| - 1]), steps[|steps| - 1]);
      hide OwnIds, Next;
    }
  }

  lemma IdAfter(p: Publisher, step: Step, i: nat, j: nat)
    ensures
      var joins := step.SubscribeStep? && step.batch > 0 && step.i == i;
      && |SubscribersOf(Next(p, step), i)| == |SubscribersOf(p, i)| + (if joins then 1 else 0)
      && IdAt(Next(p, step), i, j) == if joins && j == |SubscribersOf(p, i)| then p.nextId else IdAt(p, i, j)
    ensures Next(p, step).nextId == p.nextId + if step.SubscribeStep? && step.batch > 0 then 1 else 0
  {
  }

  lemma NextKeepsIds(p: Publisher, step: Step)
    requires OwnIds(p) && p.nextId > 0
    ensures OwnIds(Next(p, step)) && Next(p, step).nextId > 0
  {
    var p' := Next(p, step);
    hide Next, SubscribersOf, IdAt;
    IdAfter(p, step, 0, 0);
    forall i: nat, j: nat
      ensures IdAt(p', i, j) < p'.nextId && (IdAt(p', i, j) == 0 <==> j >= |SubscribersOf(p', i)|)
    {
      IdAfter(p, step, i, j);
    }
    forall i: nat, j: nat, i': nat, j': nat | IdAt(p', i, j) == IdAt(p', i', j') && IdAt(p', i, j) != 0
      ensures i == i' && j == j'
    {
      IdAfter(p, step, i, j);
      IdAfter(p, step, i', j');
    }
  }

  // ---- the gap detector ----

  datatype Status = InOrder | Gap | DuplicateOrOutOfOrder

  datatype Check = Check(status: Status, instrumentId: nat, expected: nat, observed: nat)

  type Seen = map<nat, nat>

  function Expected(seen: Seen, i: nat): nat {
    if i in seen then NextSeq(seen[i]) else 1
  }

  function CheckOf(seen: Seen, m: Message): Check {
    var expected := Expected(seen, m.instrumentId);
    var status := if m.seqNo == expected then InOrder
                  else if m.seqNo > expected then Gap else DuplicateOrOutOfOrder;
    Check(status, m.instrumentId, expected, m.seqNo)
  }

  function Noted(seen: Seen, m: Message): Seen {
    if CheckOf(seen, m).status == DuplicateOrOutOfOrder then seen else seen[m.instrumentId := m.seqNo]
  }

  function ObserveAll(seen: Seen, messages: seq<Message>): Seen {
    if messages == [] then seen
    else Noted(ObserveAll(seen, messages[..|messages| - 1]), messages[|messages| - 1])
  }

  function ChecksOf(seen: Seen, messages: seq<Message>): seq<Check> {
    if messages == [] then []
    else
      var n := |messages| - 1;
      ChecksOf(seen, messages[..n]) + [CheckOf(ObserveAll(seen, messages[..n]), messages[n])]
  }

  function LastSeen(seen: Seen, i: nat): nat {
    if i in seen then seen[i] else 0
  }

  function Highest(messages: seq<Message>, i: nat): nat {
    if messages == [] then 0
    else
      var before, last := Highest(messages[..|messages| - 1], i), messages[|messages| - 1];
      if last.instrumentId == i && last.seqNo > before then last.seqNo else before
  }

  /** One for a message in order; for a gap, how far it jumps. */
  function Progress(c: Check): int {
    match c.status
    case InOrder => 1
    case Gap => c.observed - c.expected + 1
    case DuplicateOrOutOfOrder => 0
  }

  function TotalProgress(checks: seq<Check>, i: nat): int {
    if checks == [] then 0
    else
      var last := checks[|checks| - 1];
      TotalProgress(checks[..|checks| - 1], i) + if last.instrumentId == i then Progress(last) else 0
  }

  /** For arbitrary messages numbered below the 64-bit top, in any order and of any instruments: the last value
      is the highest number seen, and the checks in order and the gaps account for all of it. */
  lemma {:induction false} LastSeenIsHighest(messages: seq<Message>, i: nat)
    requires forall k :: 0 <= k < |messages| ==> messages[k].seqNo < SEQ_LIMIT - 1
    ensures LastSeen(ObserveAll(map[], messages), i) == Highest(messages, i) < SEQ_LIMIT - 1
    ensures Highest(messages, i) == TotalProgress(ChecksOf(map[], messages), i)
  {
    if messages != [] {
      var n := |messages| - 1;
      var before, last := messages[..n], messages[n];
      LastSeenIsHighest(before, i);
      var seen, checks := ObserveAll(map[], before), ChecksOf(map[], before);
      var c := CheckOf(seen, last);
      assert (checks + [c])[..|checks|] == checks;
      ObserveProgress(seen, last, i);
      hide Noted, CheckOf, Progress;
    }
  }

  lemma ObserveProgress(seen: Seen, m: Message, i: nat)
    requires LastSeen(seen, i) < SEQ_LIMIT - 1 && m.seqNo < SEQ_LIMIT - 1
    ensures CheckOf(seen, m).instrumentId == m.instrumentId
    ensures m.instrumentId != i ==> LastSeen(Noted(seen, m), i) == LastSeen(seen, i)
    ensures m.instrumentId == i ==>
      && LastSeen(Noted(seen, m), i) == (if m.seqNo > LastSeen(seen, i) then m.seqNo else LastSeen(seen, i))
      && LastSeen(Noted(seen, m), i) == LastSeen(seen, i) + Progress(CheckOf(seen, m))
  {
  }

  /** One more message after arbitrary others: it is in order when it is one above the highest number seen of its
      instrument, a gap when it is higher still, and otherwise a repeat. */
  lemma CheckMeaning(messages: seq<Message>, m: Message)
    requires forall k :: 0 <= k < |messages| ==> messages[k].seqNo < SEQ_LIMIT - 1
    ensures
      var c, expected := CheckOf(ObserveAll(map[], messages), m), Highest(messages, m.instrumentId) + 1;
      && c == Check(c.status, m.instrumentId, expected, m.seqNo)
      && (c.status == InOrder <==> m.seqNo == expected) && (c.status == Gap <==> m.seqNo > expected)
  {
    LastSeenIsHighest(messages, m.instrumentId);
  }

  // ---- end to end ----

  ghost predicate Consecutive(messages: seq<Message>, i: nat, n: nat) {
    forall k :: 0 <= k < |messages| ==> messages[k].instrumentId == i && messages[k].seqNo == n + k + 1 < SEQ_LIMIT
  }

  /** What a fresh detector says about message k of a subscriber that joined after n publications. */
  function JoinCheck(i: nat, n: nat, k: nat): Check {
    if k == 0 && n > 0 then Check(Gap, i, 1, n + 1) else Check(InOrder, i, n + k + 1, n + k + 1)
  }

  lemma {:induction false} FreshDetector(messages: seq<Message>, i: nat, n: nat)
    requires Consecutive(messages, i, n)
    ensures ObserveAll(map[], messages) == if messages == [] then map[] else map[i := n + |messages|]
    ensures |ChecksOf(map[], messages)| == |messages|
    ensures forall k :: 0 <= k < |messages| ==> ChecksOf(map[], messages)[k] == JoinCheck(i, n, k)
  {
    if messages != [] {
      FreshDetector(messages[..|messages| - 1], i, n);
    }
  }

  /** Subscriber j of instrument i, having joined after n publications there and whatever it has received so
      far: a fresh detector reports one gap, expecting 1 and observing n + 1, if and only if n > 0, on the
      very first message; every other message is in order. */
  lemma JoinReportsOneGap(steps: seq<Step>, i: nat, j: nat)
    requires j < |Joins(steps, i)| && |Published(steps, i)| < SEQ_LIMIT
    ensures j < |SubscribersOf(Run(steps), i)|
    ensures
      var queue, n := SubscribersOf(Run(steps), i)[j].queue, Joins(steps, i)[j];
      && queue.Valid() && n <= |Published(steps, i)|
      && var received := queue.pushed[..queue.popped];
         && received <= Published(steps, i)[n..]
         && |ChecksOf(map[], received)| == |received|
         && forall k :: 0 <= k < |received| ==> ChecksOf(map[], received)[k] == JoinCheck(i, n, k)
  {
    hide Published, Joins, Run, ObserveAll, ChecksOf, Number, SubscribersOf;
    EverySubscriberFollows(steps, i);
    var published, n := Published(steps, i), Joins(steps, i)[j];
    var s := SubscribersOf(Run(steps), i)[j];
    assert Follows(s, published, n);
    hide AllFollow;
    var received := s.queue.pushed[..s.queue.popped];
    forall k | 0 <= k < |received|
      ensures received[k].instrumentId == i && received[k].seqNo == n + k + 1 < SEQ_LIMIT
    {
      assert received[k] == published[n + k];
      PublishedNumbers(steps, i, n + k);
      SmallNumber(n + k + 1);
    }
    FreshDetector(received, i, n);
  }

  // ---- the objects ----

  class MarketDataPublisher {
    var nextSubscriberId: nat
    var lastSeqNo: map<nat, nat>
    var subscribers: map<nat, seq<Subscriber>>
    var subscriberCount: nat

    ghost function Value(): Publisher
      reads this
    {
      Publisher(nextSubscriberId, lastSeqNo, subscribers)
    }

    constructor ()
      ensures Value() == Run([]) && subscriberCount == 0
    {
      nextSubscriberId, lastSeqNo, subscribers, subscriberCount := 1, map[], map[], 0;
    }

    method Subscribe(i: nat, batch: nat) returns (id: nat)
      requires batch > 0
      modifies this
      ensures Value() == Next(old(Value()), SubscribeStep(i, batch))
      ensures id == old(nextSubscriberId) && subscriberCount == old(subscriberCount) + 1
    {
      id := nextSubscriberId;
      nextSubscriberId := nextSubscriberId + 1;
      var subs := if i in subscribers then subscribers[i] else [];
      subscribers := subscribers[i := subs + [Subscriber(id, Empty(batch))]];
      subscriberCount := subscriberCount + 1;
    }

    /** Updates, snapshots and trades share the numbering of their instrument. */
    method Publish(kind: Kind, i: nat, payload: int) returns (seqNo: nat)
      modifies `lastSeqNo, `subscribers
      ensures Value() == Next(old(Value()), PublishStep(kind, i, payload))
      ensures seqNo == LastSeq(Value(), i)
    {
      seqNo := NextSeqNo(i);
      if i !in subscribers {
        return;
      }
      var m := Message(kind, i, seqNo, payload);
      var subs, pushed := subscribers[i], [];
      for j := 0 to |subs|
        invariant pushed == PushAll(subs[..j], m)
      {
        assert subs[..j + 1] == subs[..j] + [subs[j]];
        pushed := pushed + [subs[j].(queue := subs[j].queue.Push(m))];
      }
      assert subs[..|subs|] == subs;
      subscribers := subscribers[i := pushed];
    }

    method NextSeqNo(i: nat) returns (seqNo: nat)
      modifies `lastSeqNo
      ensures seqNo == NextSeq(LastSeq(old(Value()), i)) && lastSeqNo == old(lastSeqNo)[i := seqNo]
    {
      var last := if i in lastSeqNo then lastSeqNo[i] else 0;
      seqNo := if last + 1 == SEQ_LIMIT then 0 else last + 1;
      lastSeqNo := lastSeqNo[i := seqNo];
    }

    method FlushQueues()
      modifies `subscribers
      ensures Value() == Next(old(Value()), FlushStep)
    {
      var unseen := subscribers.Keys;
      while unseen != {}
        invariant unseen <= subscribers.Keys == old(subscribers).Keys
        invariant forall i :: i in unseen ==> subscribers[i] == old(subscribers)[i]
        invariant forall i :: i in subscribers && i !in unseen ==> subscribers[i] == FlushAll(old(subscribers)[i])
        decreases |unseen|
      {
        var i :| i in unseen;
        var flushed := [];
        for j := 0 to |subscribers[i]|
          invariant flushed == FlushAll(subscribers[i][..j])
        {
          assert subscribers[i][..j + 1] == subscribers[i][..j] + [subscribers[i][j]];
          flushed := flushed + [subscribers[i][j].(queue := subscribers[i][j].queue.Flush())];
        }
        assert subscribers[i][..|subscribers[i]|] == subscribers[i];
        subscribers := subscribers[i := flushed];
        unseen := unseen - {i};
      }
    }
  }

  class MarketDataGapDetector {
    var lastSeqNo: Seen

    constructor ()
      ensures lastSeqNo == map[]
    {
      lastSeqNo := map[];
    }

    method Observe(m: Message) returns (c: Check)
      modifies this
      ensures c == CheckOf(old(lastSeqNo), m)
      ensures lastSeqNo == Noted(old(lastSeqNo), m)
    {
      var i := m.instrumentId;
      if i !in lastSeqNo {
        if m.seqNo == 1 {
          lastSeqNo := lastSeqNo[i := m.seqNo];
          return Check(InOrder, i, 1, m.seqNo);
        }
        if m.seqNo > 1 {
          lastSeqNo := lastSeqNo[i := m.seqNo];
          return Check(Gap, i, 1, m.seqNo);
        }
        return Check(DuplicateOrOutOfOrder, i, 1, m.seqNo);
      }
      var expected := NextSeq(lastSeqNo[i]);
      if m.seqNo == expected {
        lastSeqNo := lastSeqNo[i := m.seqNo];
        return Check(InOrder, i, expected, m.seqNo);
      }
      if m.seqNo > expected {
        lastSeqNo := lastSeqNo[i := m.seqNo];
        return Check(Gap, i, expected, m.seqNo);
      }
      return Check(DuplicateOrOutOfOrder, i, expected, m.seqNo);
    }

    method Reset()
      modifies this
      ensures lastSeqNo == map[]
    {
      lastSeqNo := map[];
    }
  }

  /** A subscriber whose callback is a gap detector. */
  class MarketDataSubscriber {
    var queue: Channel<Message>
    const detector: MarketDataGapDetector

    constructor (batch: nat, detector: MarketDataGapDetector)
      requires batch > 0
      ensures queue == Empty(batch) && this.detector == detector
    {
      this.queue, this.detector := Empty(batch), detector;
    }

    /** Hand over everything visible, in order. */
    method DrainAvailable() returns (checks: seq<Check>)
      requires queue.Valid()
      modifies this, detector
      ensures queue == old(queue).(popped := old(queue.visible))
      ensures
        var drained := queue.pushed[old(queue.popped)..queue.popped];
        && checks == ChecksOf(old(detector.lastSeqNo), drained)
        && detector.lastSeqNo == ObserveAll(old(detector.lastSeqNo), drained)
    {
      checks := [];
      ghost var start := queue.popped;
      while queue.CanPop()
        invariant queue.Valid() && start <= queue.popped && queue == old(queue).(popped := queue.popped)
        invariant checks == ChecksOf(old(detector.lastSeqNo), queue.pushed[start..queue.popped])
        invariant detector.lastSeqNo == ObserveAll(old(detector.lastSeqNo), queue.pushed[start..queue.popped])
        decreases queue.visible - queue.popped
      {
        var m := queue.Front();
        ghost var before := queue.pushed[start..queue.popped];
        queue := queue.Pop();
        assert queue.pushed[start..queue.popped] == before + [m];
        assert (before + [m])[..|before|] == before;
        var c := detector.Observe(m);
        checks := checks + [c];
      }
    }
  }
}
