/** Sharded reconstruction: a dispatcher with its own router feeds workers over batched queues, each
    worker owning the books of the instruments that fall to it. Every schedule of dispatcher, flush and
    worker steps refines one sequential book manager. */
module ShardedBooks {
  import opened Domain
  import opened Channels
  import opened LimitOrderBooks
  import opened BookSnapshots
  import opened BookManagers

  datatype RouterOrder = RouterOrder(instrumentId: nat, size: nat)

  type Router = map<nat, RouterOrder>

  type Queues = seq<Channel<Event>>

  /** Worker k pops queues[k] and owns managers[k]; everything else belongs to the dispatcher. */
  datatype Sharded = Sharded(
    router: Router, processed: nat, unresolved: nat, queues: Queues, managers: seq<Manager>)

  datatype Step = Dispatch(e: Event) | FlushQueue(k: nat) | Work(k: nat)

  // ---- the steps ----

  function RouterResolve(router: Router, e: Event): nat {
    if e.instrumentId != 0 then e.instrumentId
    else if e.orderId == 0 || e.orderId !in router then 0
    else router[e.orderId].instrumentId
  }

  /** The router after an event whose instrument is known: it tracks instrument and size only. */
  function RouterAfter(router: Router, e: Event): Router {
    var o := e.orderId;
    match e.action
    case Add | Modify =>
      if ValidResting(e) then router[o := RouterOrder(e.instrumentId, e.size)] else router
    case Cancel =>
      if o !in router then router
      else if e.size == 0 || e.size >= router[o].size then router - {o}
      else router[o := router[o].(size := router[o].size - e.size)]
    case Clear => RouterWithout(router, e.instrumentId)
    case Trade | Fill | NoAction => router
  }

  function RouterWithout(router: Router, i: nat): Router {
    map o | o in router && router[o].instrumentId != i :: router[o]
  }

  /** What the dispatcher enqueues: a full cancel for the old instrument of a moving order, then the event. */
  function Messages(router: Router, e: Event): seq<Event> {
    if Places(e) && e.orderId in router && router[e.orderId].instrumentId != e.instrumentId then
      [FullCancel(e, router[e.orderId].instrumentId), e]
    else [e]
  }

  function Send(queues: Queues, e: Event): Queues
    requires |queues| > 0
  {
    var k := e.instrumentId % |queues|;
    queues[k := queues[k].Push(e)]
  }

  function SendAll(queues: Queues, events: seq<Event>): (r: Queues)
    requires |queues| > 0
    ensures |r| == |queues|
  {
    if events == [] then queues else Send(SendAll(queues, events[..|events| - 1]), events[|events| - 1])
  }

  function Process(s: Sharded, e: Event): Sharded
    requires |s.queues| > 0
  {
    var i := RouterResolve(s.router, e);
    if i == 0 then s.(processed := s.processed + 1, unresolved := s.unresolved + 1)
    else
      var routed := e.(instrumentId := i);
      Sharded(RouterAfter(s.router, routed), s.processed + 1, s.unresolved,
              SendAll(s.queues, Messages(s.router, routed)), s.managers)
  }

  /** One turn of worker k's loop; it blocks while nothing is visible. */
  ghost function WorkOnce(s: Sharded, k: nat): Sharded
    requires k < |s.queues| == |s.managers|
  {
    var q := s.queues[k];
    if q.Valid() && q.CanPop() then
      s.(queues := s.queues[k := q.Pop()], managers := s.managers[k := ManagerApply(s.managers[k], q.Front())])
    else s
  }

  predicate Sized(s: Sharded, n: nat) {
    n > 0 && |s.queues| == |s.managers| == n
  }

  ghost function Take(s: Sharded, step: Step, n: nat): (r: Sharded)
    requires Sized(s, n)
    ensures Sized(r, n)
  {
    match step
    case Dispatch(e) => Process(s, e)
    case FlushQueue(k) => if k < n then s.(queues := s.queues[k := s.queues[k].Flush()]) else s
    case Work(k) => if k < n then WorkOnce(s, k) else s
  }

  ghost function Initial(n: nat, batch: nat): Sharded {
    Sharded(map[], 0, 0, seq(n, k => Empty(batch)), seq(n, k => EMPTY_MANAGER))
  }

  ghost function Run(n: nat, batch: nat, steps: seq<Step>): (r: Sharded)
    requires n > 0
    ensures Sized(r, n)
  {
    if steps == [] then Initial(n, batch)
    else Take(Run(n, batch, steps[..|steps| - 1]), steps[|steps| - 1], n)
  }

  /** The events handed to the dispatcher, in order. */
  function Dispatched(steps: seq<Step>): seq<Event> {
    if steps == [] then []
    else
      var last := steps[|steps| - 1];
      Dispatched(steps[..|steps| - 1]) + if last.Dispatch? then [last.e] else []
  }

  // ---- the relation to the sequential manager ----

  ghost function Shard(books: Books, n: nat, k: nat): Books
    requires n > 0
  {
    map i | i in books && i % n == k :: books[i]
  }

  /** A cancel naming a live order carries no instrument or the order's own. */
  ghost predicate CancelConsistent(books: Books, e: Event) {
    e.action == Cancel && Home(books, e.orderId) != 0 ==> e.instrumentId in {0, Home(books, e.orderId)}
  }

  ghost predicate CancelConsistentStream(events: seq<Event>) {
    forall k :: 0 <= k < |events| ==>
      CancelConsistent(ManagerRun(EMPTY_MANAGER, events[..k]).books, events[k])
  }

  /** The router knows order o exactly: its instrument and its remaining size, or that it rests nowhere. */
  ghost predicate RouterKnows(router: Router, books: Books, o: nat) {
    if o in router then
      && Holds(books, router[o].instrumentId, o)
      && books[router[o].instrumentId].orders[o].size == router[o].size
    else forall i :: !Holds(books, i, o)
  }

  ghost predicate RouterMatches(router: Router, books: Books) {
    forall o :: RouterKnows(router, books, o)
  }

  /** The worker has applied what it popped, and all it was sent amounts to its shard of the books. */
  ghost predicate WorkerMatches(q: Channel<Event>, m: Manager, books: Books, n: nat, k: nat)
    requires n > 0
  {
    && q.Valid()
    && m == ManagerRun(EMPTY_MANAGER, q.pushed[..q.popped])
    && ManagerRun(EMPTY_MANAGER, q.pushed) == Manager(Shard(books, n, k), |q.pushed|, 0)
  }

  ghost predicate WorkersMatch(queues: Queues, managers: seq<Manager>, books: Books)
    requires |queues| == |managers| > 0
  {
    forall k :: 0 <= k < |queues| ==> WorkerMatches(queues[k], managers[k], books, |queues|, k)
  }

  ghost predicate Refines(s: Sharded, m: Manager)
    requires |s.queues| == |s.managers| > 0
  {
    && GoodBooks(m.books)
    && s.processed == m.processed && s.unresolved == m.unresolved
    && RouterMatches(s.router, m.books)
    && WorkersMatch(s.queues, s.managers, m.books)
  }

  // ---- one message ----

  /** A shard's manager given one message acts as the sequential books do: it never vacates another book. */
  lemma ShardApplies(books: Books, n: nat, e: Event, count: nat)
    requires n > 0 && GoodBooks(books) && e.instrumentId != 0
    requires Places(e) ==> forall i :: Holds(books, i, e.orderId) ==> i == e.instrumentId
    ensures
      var k := e.instrumentId % n;
      ManagerApply(Manager(Shard(books, n, k), count, 0), e)
        == Manager(Shard(Touch(books, e), n, k), count + 1, 0)
  {
    var k := e.instrumentId % n;
    var mine := Shard(books, n, k);
    assert Places(e) ==> Home(mine, e.orderId) in {0, e.instrumentId} by {
      if exists i :: Holds(mine, i, e.orderId) {
        var i := Home(mine, e.orderId);
        assert Holds(mine, i, e.orderId);
        assert Holds(books, i, e.orderId);
      }
    }
    assert e.(instrumentId := e.instrumentId) == e;
    assert Vacate(mine, e) == mine;
    assert Touch(mine, e) == Shard(Touch(books, e), n, k);
  }

  lemma OtherShardsUntouched(books: Books, n: nat, e: Event, k: nat)
    requires n > 0 && k != e.instrumentId % n
    ensures Shard(Touch(books, e), n, k) == Shard(books, n, k)
  {
  }

  lemma SendMatches(queues: Queues, managers: seq<Manager>, books: Books, e: Event)
    requires |queues| == |managers| > 0 && WorkersMatch(queues, managers, books)
    requires GoodBooks(books) && e.instrumentId != 0
    requires Places(e) ==> forall i :: Holds(books, i, e.orderId) ==> i == e.instrumentId
    ensures WorkersMatch(Send(queues, e), managers, Touch(books, e))
  {
    var n := |queues|;
    var target := e.instrumentId % n;
    var queues' := Send(queues, e);
    var books' := Touch(books, e);
    forall k | 0 <= k < n
      ensures WorkerMatches(queues'[k], managers[k], books', n, k)
    {
      assert WorkerMatches(queues[k], managers[k], books, n, k);
      if k == target {
        var q, q' := queues[k], queues'[k];
        assert q'.pushed == q.pushed + [e];
        assert q'.pushed[..|q'.pushed| - 1] == q.pushed;
        assert q'.pushed[..q'.popped] == q.pushed[..q.popped];
        ShardApplies(books, n, e, |q.pushed|);
        hide Touch, Shard, ManagerApply;
      } else {
        OtherShardsUntouched(books, n, e, k);
      }
    }
  }

  // ---- the router ----

  /** An event other than a clear leaves every other order as it was. */
  lemma OthersKept(books: Books, e: Event, o: nat, i: nat)
    requires GoodBooks(books) && o != e.orderId && e.action != Clear
    ensures Holds(ApplyRouted(books, e), i, o) <==> Holds(books, i, o)
    ensures Holds(books, i, o) ==> ApplyRouted(books, e)[i].orders[o] == books[i].orders[o]
  {
    TouchKeepsOthers(books, FullCancel(e, Home(books, e.orderId)), o, i);
    TouchKeepsOthers(Vacate(books, e), e, o, i);
  }

  lemma TouchKeepsOthers(books: Books, e: Event, o: nat, i: nat)
    requires o != e.orderId && e.action != Clear
    ensures Holds(Touch(books, e), i, o) <==> Holds(books, i, o)
    ensures Holds(books, i, o) ==> Touch(books, e)[i].orders[o] == books[i].orders[o]
  {
  }

  lemma RouterFindsHome(router: Router, books: Books, o: nat)
    requires GoodBooks(books) && RouterMatches(router, books)
    ensures Home(books, o) == if o in router then router[o].instrumentId else 0
    ensures o in router ==> Holds(books, router[o].instrumentId, o)
  {
    assert RouterKnows(router, books, o);
  }

  lemma RouterKeepsOthers(router: Router, books: Books, e: Event, o: nat)
    requires GoodBooks(books) && RouterKnows(router, books, o)
    requires o != e.orderId && e.action != Clear
    ensures RouterKnows(RouterAfter(router, e), ApplyRouted(books, e), o)
  {
    var books' := ApplyRouted(books, e);
    forall i
      ensures Holds(books', i, o) <==> Holds(books, i, o)
      ensures Holds(books, i, o) ==> books'[i].orders[o] == books[i].orders[o]
    {
      OthersKept(books, e, o, i);
    }
  }

  lemma RouterFollowsPlace(router: Router, books: Books, e: Event)
    requires GoodBooks(books) && e.instrumentId != 0 && Places(e)
    ensures RouterKnows(RouterAfter(router, e), ApplyRouted(books, e), e.orderId)
  {
  }

  lemma RouterFollowsCancel(router: Router, books: Books, e: Event)
    requires GoodBooks(books) && RouterMatches(router, books) && e.instrumentId != 0 && e.action == Cancel
    ensures RouterKnows(RouterAfter(router, e), ApplyRouted(books, e), e.orderId) <==> CancelConsistent(books, e)
  {
    var o := e.orderId;
    RouterFindsHome(router, books, o);
    assert RouterKnows(router, books, o);
    var books' := Touch(books, e);
    assert ApplyRouted(books, e) == books';
    if o in router {
      var home := router[o].instrumentId;
      HomeIs(books, home, o);
      if home == e.instrumentId {
        CancelledOrder(books, e);
      } else {
        assert books'[home] == books[home];
        assert Holds(books', home, o);
      }
    } else {
      forall i
        ensures !Holds(books', i, o)
      {
        TouchHolds(books, e, i, o);
      }
    }
  }

  /** A cancel in the order's own book leaves the remainder there, or the order nowhere. */
  lemma CancelledOrder(books: Books, e: Event)
    requires GoodBooks(books) && e.action == Cancel && Holds(books, e.instrumentId, e.orderId)
    ensures
      var o, i := e.orderId, e.instrumentId;
      var size := books[i].orders[o].size;
      if e.size == 0 || e.size >= size then forall j :: !Holds(Touch(books, e), j, o)
      else Holds(Touch(books, e), i, o) && Touch(books, e)[i].orders[o].size == size - e.size
  {
    forall j | j != e.instrumentId
      ensures !Holds(Touch(books, e), j, e.orderId)
    {
      TouchHolds(books, e, j, e.orderId);
    }
  }

  lemma RouterFollowsClear(router: Router, books: Books, e: Event, o: nat)
    requires GoodBooks(books) && RouterKnows(router, books, o) && e.action == Clear
    ensures RouterKnows(RouterAfter(router, e), ApplyRouted(books, e), o)
  {
    var books' := Touch(books, e);
    assert ApplyRouted(books, e) == books';
    if o in router && router[o].instrumentId != e.instrumentId {
      assert books'[router[o].instrumentId] == books[router[o].instrumentId];
    } else {
      forall i
        ensures !Holds(books', i, o)
      {
        TouchHolds(books, e, i, o);
      }
    }
  }

  /** The router stays exact over a step if and only if the event is cancel-consistent. */
  lemma RouterExactIff(router: Router, books: Books, e: Event)
    requires GoodBooks(books) && RouterMatches(router, books) && e.instrumentId != 0
    ensures RouterMatches(RouterAfter(router, e), ApplyRouted(books, e)) <==> CancelConsistent(books, e)
  {
    var router', books' := RouterAfter(router, e), ApplyRouted(books, e);
    var o := e.orderId;
    forall other | other != o || e.action == Clear
      ensures RouterKnows(router', books', other)
    {
      assert RouterKnows(router, books, other);
      if e.action == Clear {
        RouterFollowsClear(router, books, e, other);
      } else {
        RouterKeepsOthers(router, books, e, other);
      }
    }
    assert RouterKnows(router, books, o);
    if e.action == Cancel {
      RouterFollowsCancel(router, books, e);
    } else if Places(e) {
      RouterFollowsPlace(router, books, e);
    } else if e.action != Clear {
      RouterIdle(router, books, e);
    }
  }

  lemma RouterIdle(router: Router, books: Books, e: Event)
    requires GoodBooks(books) && RouterKnows(router, books, e.orderId)
    requires e.action != Cancel && e.action != Clear && !Places(e)
    ensures RouterKnows(RouterAfter(router, e), ApplyRouted(books, e), e.orderId)
  {
    var books' := Touch(books, e);
    assert ApplyRouted(books, e) == books';
    forall i
      ensures Holds(books', i, e.orderId) <==> Holds(books, i, e.orderId)
      ensures Holds(books, i, e.orderId) ==> books'[i].orders == books[i].orders
    {
      TouchHolds(books, e, i, e.orderId);
    }
  }

  // ---- runs ----

  lemma MessagesMatch(queues: Queues, managers: seq<Manager>, router: Router, books: Books, e: Event)
    requires |queues| == |managers| > 0 && WorkersMatch(queues, managers, books)
    requires GoodBooks(books) && RouterMatches(router, books) && e.instrumentId != 0
    ensures WorkersMatch(SendAll(queues, Messages(router, e)), managers, ApplyRouted(books, e))
  {
    RouterFindsHome(router, books, e.orderId);
    VacateClears(books, e);
    var ms := Messages(router, e);
    SendShort(queues, ms);
    if |ms| == 2 {
      SendMatches(queues, managers, books, ms[0]);
      SendMatches(Send(queues, ms[0]), managers, Vacate(books, e), e);
    } else {
      SendMatches(queues, managers, books, e);
    }
  }

  lemma SendShort(queues: Queues, ms: seq<Event>)
    requires |queues| > 0
    ensures |ms| == 1 ==> SendAll(queues, ms) == Send(queues, ms[0])
    ensures |ms| == 2 ==> SendAll(queues, ms) == Send(Send(queues, ms[0]), ms[1])
  {
    if |ms| == 1 {
      assert ms[..0] == [];
    } else if |ms| == 2 {
      assert ms[..1] == [ms[0]] && ms[..1][..0] == [];
      assert SendAll(queues, ms[..1]) == Send(queues, ms[0]);
    }
  }

  lemma DispatchRefines(s: Sharded, m: Manager, e: Event)
    requires |s.queues| == |s.managers| > 0 && Refines(s, m) && CancelConsistent(m.books, e)
    ensures Refines(Process(s, e), ManagerApply(m, e))
  {
    hide RouterMatches, WorkersMatch, GoodBooks, ApplyRouted, RouterAfter, Messages;
    RouterFindsHome(s.router, m.books, e.orderId);
    NoZeroOrder(m.books);
    var i := Resolve(m.books, e);
    assert i == RouterResolve(s.router, e);
    if i != 0 {
      var routed := e.(instrumentId := i);
      ApplyRoutedKeepsGood(m.books, routed);
      RouterExactIff(s.router, m.books, routed);
      MessagesMatch(s.queues, s.managers, s.router, m.books, routed);
    }
  }

  lemma NoZeroOrder(books: Books)
    requires GoodBooks(books)
    ensures Home(books, 0) == 0
  {
    HomeHolds(books, 0);
  }

  lemma WorkerStepRefines(s: Sharded, m: Manager, k: nat, n: nat)
    requires Sized(s, n) && Refines(s, m)
    ensures Refines(Take(s, Work(k), n), m)
    ensures Refines(Take(s, FlushQueue(k), n), m)
  {
    if k < n {
      var q, mgr := s.queues[k], s.managers[k];
      assert WorkerMatches(q, mgr, m.books, n, k);
      if q.CanPop() {
        assert q.pushed[..q.popped + 1][..q.popped] == q.pushed[..q.popped];
        assert WorkerMatches(q.Pop(), ManagerApply(mgr, q.Front()), m.books, n, k);
      }
      assert WorkerMatches(q.Flush(), mgr, m.books, n, k);
      hide WorkerMatches, ManagerApply;
    }
  }

  /** Every schedule refines the sequential manager on the events dispatched so far. */
  lemma {:induction false} EveryScheduleRefines(n: nat, batch: nat, steps: seq<Step>)
    requires n > 0 && batch > 0
    requires CancelConsistentStream(Dispatched(steps))
    ensures Refines(Run(n, batch, steps), ManagerRun(EMPTY_MANAGER, Dispatched(steps)))
  {
    hide Refines, Process, CancelConsistent, ManagerApply;
    if steps == [] {
      InitialRefines(n, batch);
    } else {
      var before := steps[..|steps| - 1];
      var last := steps[|steps| - 1];
      var events, events' := Dispatched(before), Dispatched(steps);
      PrefixConsistent(events, events');
      EveryScheduleRefines(n, batch, before);
      var s, m := Run(n, batch, before), ManagerRun(EMPTY_MANAGER, events);
      match last
      case Dispatch(e) =>
        assert events' == events + [e] && events'[..|events|] == events;
        assert CancelConsistent(ManagerRun(EMPTY_MANAGER, events'[..|events|]).books, events'[|events|]);
        DispatchRefines(s, m, e);
      case FlushQueue(k) =>
        assert events' == events;
        WorkerStepRefines(s, m, k, n);
      case Work(k) =>
        assert events' == events;
        WorkerStepRefines(s, m, k, n);
    }
  }

  lemma PrefixConsistent(events: seq<Event>, more: seq<Event>)
    requires events <= more && CancelConsistentStream(more)
    ensures CancelConsistentStream(events)
  {
    forall k | 0 <= k < |events|
      ensures CancelConsistent(ManagerRun(EMPTY_MANAGER, events[..k]).books, events[k])
    {
      assert events[..k] == more[..k] && events[k] == more[k];
    }
  }

  lemma InitialRefines(n: nat, batch: nat)
    requires n > 0 && batch > 0
    ensures Refines(Initial(n, batch), EMPTY_MANAGER)
  {
    var s := Initial(n, batch);
    forall k | 0 <= k < n
      ensures WorkerMatches(s.queues[k], s.managers[k], map[], n, k)
    {
      assert Shard(map[], n, k) == map[];
    }
  }

  /** Everything sent has been applied: what the dispatcher waits for before it reads the books. */
  ghost predicate Drained(queues: Queues) {
    forall k :: 0 <= k < |queues| ==> queues[k].popped == |queues[k].pushed|
  }

  /** The books of all workers put together. */
  ghost function Merged(managers: seq<Manager>): Books {
    if managers == [] then map[]
    else Merged(managers[..|managers| - 1]) + managers[|managers| - 1].books
  }

  /** After a drain the merged books and the unresolved count are those of the sequential manager, and
      each worker holds its shard and resolved everything it was sent. */
  lemma DrainedStateIsSequential(n: nat, batch: nat, steps: seq<Step>)
    requires n > 0 && batch > 0
    requires CancelConsistentStream(Dispatched(steps)) && Drained(Run(n, batch, steps).queues)
    ensures
      var s, m := Run(n, batch, steps), ManagerRun(EMPTY_MANAGER, Dispatched(steps));
      && Merged(s.managers) == m.books
      && s.processed == m.processed && s.unresolved == m.unresolved
      && (forall k :: 0 <= k < n ==> s.managers[k].books == Shard(m.books, n, k) && s.managers[k].unresolved == 0)
  {
    EveryScheduleRefines(n, batch, steps);
    var s, m := Run(n, batch, steps), ManagerRun(EMPTY_MANAGER, Dispatched(steps));
    forall k | 0 <= k < n
      ensures s.managers[k].books == Shard(m.books, n, k) && s.managers[k].unresolved == 0
    {
      var q := s.queues[k];
      assert WorkerMatches(q, s.managers[k], m.books, n, k);
      assert q.pushed[..q.popped] == q.pushed;
    }
    MergedShards(s.managers, m.books, n);
    assert m.books == map i | i in m.books && i % n < n :: m.books[i];
  }

  lemma {:induction false} MergedShards(managers: seq<Manager>, books: Books, n: nat)
    requires n > 0
    requires forall k :: 0 <= k < |managers| ==> managers[k].books == Shard(books, n, k)
    ensures Merged(managers) == map i | i in books && i % n < |managers| :: books[i]
  {
    if managers != [] {
      MergedShards(managers[..|managers| - 1], books, n);
    }
  }

  /** On a drained run the router names exactly the resting orders: order o rests in book i of shard
      i mod n with size s if and only if the router holds o -> (i, s). */
  lemma RouterPredictsBooks(n: nat, batch: nat, steps: seq<Step>, o: nat, i: nat, size: nat)
    requires n > 0 && batch > 0
    requires CancelConsistentStream(Dispatched(steps)) && Drained(Run(n, batch, steps).queues)
    ensures
      var s := Run(n, batch, steps);
      (o in s.router && s.router[o] == RouterOrder(i, size)) <==>
      (var books := s.managers[i % n].books; Holds(books, i, o) && books[i].orders[o].size == size)
  {
    EveryScheduleRefines(n, batch, steps);
    DrainedStateIsSequential(n, batch, steps);
    hide *;
    RouterVsShard(Run(n, batch, steps), ManagerRun(EMPTY_MANAGER, Dispatched(steps)), n, o, i, size);
  }

  lemma RouterVsShard(s: Sharded, m: Manager, n: nat, o: nat, i: nat, size: nat)
    requires Sized(s, n) && Refines(s, m)
    requires forall k :: 0 <= k < n ==> s.managers[k].books == Shard(m.books, n, k)
    ensures
      (o in s.router && s.router[o] == RouterOrder(i, size)) <==>
      (var books := s.managers[i % n].books; Holds(books, i, o) && books[i].orders[o].size == size)
  {
    assert RouterKnows(s.router, m.books, o);
    hide RouterMatches, WorkersMatch;
    var k := i % n;
    assert s.managers[k].books == Shard(m.books, n, k);
    assert Holds(s.managers[k].books, i, o) <==> Holds(m.books, i, o);
  }

  // ---- why cancel-consistency is needed ----

  /** The dispatcher's own state; it depends on the events only, never on the schedule. */
  datatype Front = Front(router: Router, unresolved: nat)

  function RouteOne(f: Front, e: Event): Front {
    var i := RouterResolve(f.router, e);
    if i == 0 then f.(unresolved := f.unresolved + 1)
    else f.(router := RouterAfter(f.router, e.(instrumentId := i)))
  }

  function RouteAll(f: Front, events: seq<Event>): Front {
    if events == [] then f
    else RouteOne(RouteAll(f, events[..|events| - 1]), events[|events| - 1])
  }

  const NEW_FRONT: Front := Front(map[], 0)

  lemma {:induction false} FrontIgnoresSchedule(n: nat, batch: nat, steps: seq<Step>)
    requires n > 0
    ensures
      var s := Run(n, batch, steps);
      Front(s.router, s.unresolved) == RouteAll(NEW_FRONT, Dispatched(steps))
  {
    if steps != [] {
      var before, last := steps[..|steps| - 1], steps[|steps| - 1];
      FrontIgnoresSchedule(n, batch, before);
      var events := Dispatched(before);
      FrontStep(Run(n, batch, before), last, n);
      hide Take, RouteOne, Sized;
      match last
      case Dispatch(e) => assert (events + [e])[..|events|] == events;
      case _ => assert Dispatched(steps) == events;
    }
  }

  lemma FrontStep(s: Sharded, step: Step, n: nat)
    requires n > 0 && Sized(s, n)
    ensures
      var s', f := Take(s, step, n), Front(s.router, s.unresolved);
      Front(s'.router, s'.unresolved) == if step.Dispatch? then RouteOne(f, step.e) else f
  {
    hide RouterAfter, Messages, SendAll;
  }

  ghost predicate RouterExactAfter(events: seq<Event>) {
    RouterMatches(RouteAll(NEW_FRONT, events).router, ManagerRun(EMPTY_MANAGER, events).books)
  }

  /** The router is exact after every prefix if and only if the stream is cancel-consistent. */
  lemma RouterExactIffConsistent(events: seq<Event>)
    ensures CancelConsistentStream(events) <==> forall k :: 0 <= k <= |events| ==> RouterExactAfter(events[..k])
  {
    hide RouterExactAfter, CancelConsistent, ManagerRun;
    if CancelConsistentStream(events) {
      forall k | 0 <= k <= |events|
        ensures RouterExactAfter(events[..k])
      {
        ExactUpTo(events, k);
      }
    } else {
      var k :| 0 <= k < |events| && !CancelConsistent(ManagerRun(EMPTY_MANAGER, events[..k]).books, events[k]);
      assert events[..k] + [events[k]] == events[..k + 1];
      if RouterExactAfter(events[..k]) {
        ExactStep(events[..k], events[k]);
      }
      assert !RouterExactAfter(events[..k]) || !RouterExactAfter(events[..k + 1]);
    }
  }

  lemma ExactStep(events: seq<Event>, e: Event)
    requires RouterExactAfter(events)
    ensures RouterExactAfter(events + [e]) <==> CancelConsistent(ManagerRun(EMPTY_MANAGER, events).books, e)
  {
    assert (events + [e])[..|events|] == events;
    ManagerRunGood(events);
    OneEventExactIff(RouteAll(NEW_FRONT, events), ManagerRun(EMPTY_MANAGER, events), e);
    hide RouterMatches, CancelConsistent;
  }

  lemma OneEventExactIff(f: Front, m: Manager, e: Event)
    requires GoodBooks(m.books) && RouterMatches(f.router, m.books)
    ensures RouterMatches(RouteOne(f, e).router, ManagerApply(m, e).books) <==> CancelConsistent(m.books, e)
  {
    RouterFindsHome(f.router, m.books, e.orderId);
    NoZeroOrder(m.books);
    var i := Resolve(m.books, e);
    if i != 0 {
      RouterExactIff(f.router, m.books, e.(instrumentId := i));
    }
  }

  lemma {:induction false} ExactUpTo(events: seq<Event>, n: nat)
    requires n <= |events| && CancelConsistentStream(events)
    ensures RouterExactAfter(events[..n])
  {
    if n == 0 {
      assert events[..0] == [];
    } else {
      hide RouterExactAfter, CancelConsistent;
      ExactUpTo(events, n - 1);
      ExactStep(events[..n - 1], events[n - 1]);
      assert events[..n - 1] + [events[n - 1]] == events[..n];
    }
  }

  /** After an inconsistent cancel the two forms can be told apart: a cancel without an instrument, or
      two of them, is resolved by the sequential manager and unresolved by the dispatcher. */
  lemma InconsistentCancelDiverges(f: Front, m: Manager, e: Event) returns (more: seq<Event>)
    requires GoodBooks(m.books) && RouterMatches(f.router, m.books) && f.unresolved == m.unresolved
    requires !CancelConsistent(m.books, e)
    ensures |more| <= 2 && forall k :: 0 <= k < |more| ==> more[k].action == Cancel && more[k].instrumentId == 0
    ensures RouteAll(RouteOne(f, e), more).unresolved == ManagerRun(ManagerApply(m, e), more).unresolved + 1
  {
    var o := e.orderId;
    RouterFindsHome(f.router, m.books, o);
    assert RouterKnows(f.router, m.books, o);
    NoZeroOrder(m.books);
    var home := f.router[o].instrumentId;
    var f1, m1 := RouteOne(f, e), ManagerApply(m, e);
    ApplyRoutedKeepsGood(m.books, e);
    assert m1.books[home] == m.books[home];
    HomeIs(m1.books, home, o);
    if o !in f1.router {
      var cancel := e.(instrumentId := 0);
      more := [cancel];
      ShortRuns(f1, m1, cancel);
    } else {
      var part := e.(instrumentId := 0, size := f1.router[o].size);
      more := [part, part];
      ShortRuns(f1, m1, part);
      var m2 := ManagerApply(m1, part);
      ApplyRoutedKeepsGood(m1.books, part.(instrumentId := home));
      CancelledOrder(m1.books, part.(instrumentId := home));
      HomeIs(m2.books, home, o);
    }
  }

  lemma ShortRuns(f: Front, m: Manager, e: Event)
    ensures RouteAll(f, [e]) == RouteOne(f, e) && RouteAll(f, [e, e]) == RouteOne(RouteOne(f, e), e)
    ensures ManagerRun(m, [e]) == ManagerApply(m, e) && ManagerRun(m, [e, e]) == ManagerApply(ManagerApply(m, e), e)
  {
    assert [e][..0] == [] && [e, e][..1] == [e];
    assert RouteAll(f, [e]) == RouteOne(f, e);
    assert ManagerRun(m, [e]) == ManagerApply(m, e);
  }

  // ---- the merged snapshot ----

  /** What a sort by instrument id leaves: a permutation in which no later id is smaller. */
  ghost predicate SortedById(r: seq<InstrumentSnapshot>, l: seq<InstrumentSnapshot>) {
    && multiset(r) == multiset(l)
    && (forall j, k :: 0 <= j < k < |r| ==> !(r[k].instrumentId < r[j].instrumentId))
  }

  /** Each list is ascending, and list j only names instruments of residue first + j. */
  ghost predicate ByResidue(lists: seq<seq<InstrumentSnapshot>>, n: nat, first: nat)
    requires n > 0
  {
    forall j :: 0 <= j < |lists| ==>
      ById(lists[j]) && forall x :: x in lists[j] ==> x.instrumentId % n == first + j
  }

  lemma {:induction false} ConcatOnce(lists: seq<seq<InstrumentSnapshot>>, n: nat, first: nat, x: InstrumentSnapshot)
    requires n > 0 && ByResidue(lists, n, first)
    ensures multiset(Concat(lists))[x] <= 1
  {
    if lists != [] {
      ConcatOnce(lists[1..], n, first + 1, x);
      AscendingOnce(lists[0], x);
      assert multiset(Concat(lists)) == multiset(lists[0]) + multiset(Concat(lists[1..]));
      if x in lists[0] {
        InConcat(lists[1..], x);
        assert forall j :: 0 <= j < |lists[1..]| ==> x !in lists[1..][j];
        assert x !in multiset(Concat(lists[1..]));
      }
    }
  }

  lemma {:induction false} AscendingOnce(l: seq<InstrumentSnapshot>, x: InstrumentSnapshot)
    requires ById(l)
    ensures multiset(l)[x] <= 1
  {
    if l != [] {
      var front := l[..|l| - 1];
      AscendingOnce(front, x);
      assert l == front + [l[|l| - 1]];
      assert l[|l| - 1] !in front;
      assert multiset(l) == multiset(front) + multiset{l[|l| - 1]};
    }
  }

  /** Worker k's snapshot lists its shard of the books. */
  ghost predicate ShardList(l: seq<InstrumentSnapshot>, books: Books, n: nat, k: nat, depth: nat)
    requires n > 0 && AllGood(books)
  {
    IsSnapshotList(l, Shard(books, n, k), depth)
  }

  lemma ShardEntry(l: seq<InstrumentSnapshot>, books: Books, n: nat, k: nat, depth: nat, x: InstrumentSnapshot)
    requires n > 0 && AllGood(books) && ShardList(l, books, n, k, depth) && x in l
    ensures x.instrumentId in books && x.instrumentId % n == k
    ensures x == SnapshotOf(x.instrumentId, books[x.instrumentId], depth)
  {
    assert x.instrumentId in Shard(books, n, k);
  }

  lemma ShardCovers(l: seq<InstrumentSnapshot>, books: Books, n: nat, k: nat, depth: nat, i: nat)
    requires n > 0 && AllGood(books) && ShardList(l, books, n, k, depth) && i in books && i % n == k
    ensures SnapshotOf(i, books[i], depth) in l
  {
    assert i in Shard(books, n, k);
  }

  ghost predicate ShardLists(lists: seq<seq<InstrumentSnapshot>>, books: Books, n: nat, depth: nat)
    requires n > 0 && AllGood(books)
  {
    |lists| == n && forall k :: 0 <= k < n ==> ShardList(lists[k], books, n, k, depth)
  }

  lemma MergedEntries(n: nat, books: Books, lists: seq<seq<InstrumentSnapshot>>, depth: nat, x: InstrumentSnapshot)
    requires n > 0 && AllGood(books) && ShardLists(lists, books, n, depth) && x in Concat(lists)
    ensures x.instrumentId in books && x == SnapshotOf(x.instrumentId, books[x.instrumentId], depth)
  {
    hide AllGood, ShardList, Concat;
    InConcat(lists, x);
    var k :| 0 <= k < n && x in lists[k];
    ShardEntry(lists[k], books, n, k, depth, x);
  }

  lemma MergedCovers(n: nat, books: Books, lists: seq<seq<InstrumentSnapshot>>, depth: nat, i: nat)
    requires n > 0 && AllGood(books) && ShardLists(lists, books, n, depth) && i in books
    ensures SnapshotOf(i, books[i], depth) in Concat(lists)
  {
    assert ShardList(lists[i % n], books, n, i % n, depth);
    hide ShardList, Concat;
    ShardCovers(lists[i % n], books, n, i % n, depth, i);
    InConcat(lists, SnapshotOf(i, books[i], depth));
  }

  lemma MergedResidues(n: nat, books: Books, lists: seq<seq<InstrumentSnapshot>>, depth: nat)
    requires n > 0 && AllGood(books) && ShardLists(lists, books, n, depth)
    ensures ByResidue(lists, n, 0)
  {
    forall j | 0 <= j < n
      ensures ById(lists[j]) && forall x :: x in lists[j] ==> x.instrumentId % n == 0 + j
    {
      assert ShardList(lists[j], books, n, j, depth);
      forall x | x in lists[j]
        ensures x.instrumentId % n == j
      {
        ShardEntry(lists[j], books, n, j, depth, x);
      }
    }
  }

  lemma SortKeepsElements(sorted: seq<InstrumentSnapshot>, l: seq<InstrumentSnapshot>, x: InstrumentSnapshot)
    requires SortedById(sorted, l)
    ensures x in sorted <==> x in l
  {
    assert x in sorted <==> x in multiset(sorted);
    assert x in l <==> x in multiset(l);
  }

  /** The dispatcher's merged snapshot, however the sort orders equal keys, lists exactly the books of
      the sequential manager in ascending order: it is the sequential snapshot. */
  lemma MergedSnapshotIsSequential(
    n: nat, books: Books, lists: seq<seq<InstrumentSnapshot>>, sorted: seq<InstrumentSnapshot>, depth: nat)
    requires n > 0 && AllGood(books) && ShardLists(lists, books, n, depth)
    requires SortedById(sorted, Concat(lists))
    ensures IsSnapshotList(sorted, books, depth)
  {
    hide SnapshotOf, GoodBook, ShardLists, SortedById, Concat, ByResidue;
    forall x | x in sorted
      ensures x.instrumentId in books && x == SnapshotOf(x.instrumentId, books[x.instrumentId], depth)
    {
      SortKeepsElements(sorted, Concat(lists), x);
      MergedEntries(n, books, lists, depth, x);
    }
    forall i | i in books
      ensures SnapshotOf(i, books[i], depth) in sorted
    {
      MergedCovers(n, books, lists, depth, i);
      SortKeepsElements(sorted, Concat(lists), SnapshotOf(i, books[i], depth));
    }
    MergedResidues(n, books, lists, depth);
    StrictlySorted(sorted, lists, n);
  }

  /** Without repeated ids the sorted list is strictly ascending. */
  lemma StrictlySorted(sorted: seq<InstrumentSnapshot>, lists: seq<seq<InstrumentSnapshot>>, n: nat)
    requires n > 0 && ByResidue(lists, n, 0) && SortedById(sorted, Concat(lists))
    requires forall x, y :: x in sorted && y in sorted && x.instrumentId == y.instrumentId ==> x == y
    ensures ById(sorted)
  {
    forall j, k | 0 <= j < k < |sorted|
      ensures sorted[j].instrumentId < sorted[k].instrumentId
    {
      if sorted[j].instrumentId == sorted[k].instrumentId {
        assert sorted[j] in sorted && sorted[k] in sorted;
        ConcatOnce(lists, n, 0, sorted[j]);
        TwiceInMultiset(sorted, j, k);
      }
    }
  }

  lemma TwiceInMultiset<T>(l: seq<T>, j: nat, k: nat)
    requires j < k < |l| && l[j] == l[k]
    ensures multiset(l)[l[j]] >= 2
  {
    assert l == l[..k] + [l[k]] + l[k + 1..];
    assert l[j] == l[..k][j];
    assert l[j] in l[..k];
  }

  /** The counters summed over the workers are the sequential ones. */
  lemma {:induction false} CountersAddUp(managers: seq<Manager>, books: Books, n: nat, stat: Stat)
    requires n > 0 && |managers| <= n
    requires forall k :: 0 <= k < |managers| ==> managers[k].books == Shard(books, n, k)
    ensures SumStat(managers, stat) == TotalStat(Merged(managers), stat)
  {
    if managers != [] {
      var front := managers[..|managers| - 1];
      CountersAddUp(front, books, n, stat);
      MergedShards(front, books, n);
      TotalStatUnion(Merged(front), managers[|managers| - 1].books, stat);
    } else {
      var none: Books := map[];
      assert Stats(none, stat) == map[];
    }
  }

  ghost function SumStat(managers: seq<Manager>, stat: Stat): int {
    if managers == [] then 0
    else SumStat(managers[..|managers| - 1], stat) + TotalStat(managers[|managers| - 1].books, stat)
  }

  // ---- the drained run as a whole ----

  function TotalUnresolved(managers: seq<Manager>): nat {
    if managers == [] then 0
    else TotalUnresolved(managers[..|managers| - 1]) + managers[|managers| - 1].unresolved
  }

  lemma {:induction false} NothingUnresolved(managers: seq<Manager>)
    requires forall k :: 0 <= k < |managers| ==> managers[k].unresolved == 0
    ensures TotalUnresolved(managers) == 0
  {
    if managers != [] {
      NothingUnresolved(managers[..|managers| - 1]);
    }
  }

  function Lists(parts: seq<ManagerSnapshot>): seq<seq<InstrumentSnapshot>> {
    seq(|parts|, k requires 0 <= k < |parts| => parts[k].instruments)
  }

  /** How the dispatcher puts the workers' snapshots together: its own count of events, all unresolved events,
      and the instruments sorted by id in whatever way the sort treats equal keys. */
  ghost predicate PutTogether(
    merged: ManagerSnapshot, s: Sharded, parts: seq<ManagerSnapshot>, eventCount: nat, timestamp: nat, depth: nat)
  {
    && |parts| == |s.managers|
    && (forall k :: 0 <= k < |parts| ==> IsManagerSnapshot(parts[k], s.managers[k], eventCount, timestamp, depth))
    && merged.eventCount == eventCount && merged.timestamp == timestamp && merged.processed == s.processed
    && merged.unresolved == s.unresolved + TotalUnresolved(s.managers)
    && SortedById(merged.instruments, Concat(Lists(parts)))
  }

  lemma ManagerBooksGood(events: seq<Event>)
    ensures AllGood(ManagerRun(EMPTY_MANAGER, events).books)
  {
    ManagerRunGood(events);
    hide GoodBook;
  }

  /** A drained run on a cancel-consistent stream, however it was scheduled: the merged snapshot is a snapshot of the
      sequential manager, header and instruments, and the workers' counters add up to the sequential ones. */
  lemma DrainedSnapshotIsSequential(
    n: nat, batch: nat, steps: seq<Step>, parts: seq<ManagerSnapshot>, merged: ManagerSnapshot,
    eventCount: nat, timestamp: nat, depth: nat)
    requires n > 0 && batch > 0
    requires CancelConsistentStream(Dispatched(steps)) && Drained(Run(n, batch, steps).queues)
    requires PutTogether(merged, Run(n, batch, steps), parts, eventCount, timestamp, depth)
    ensures
      var m := ManagerRun(EMPTY_MANAGER, Dispatched(steps));
      && IsManagerSnapshot(merged, m, eventCount, timestamp, depth)
      && forall stat: Stat :: SumStat(Run(n, batch, steps).managers, stat) == TotalStat(m.books, stat)
  {
    var s, m := Run(n, batch, steps), ManagerRun(EMPTY_MANAGER, Dispatched(steps));
    hide CancelConsistentStream, Drained, Run, ManagerRun, Dispatched, IsSnapshotList, AllGood, SortedById, Concat,
      Shard, Merged, SumStat, TotalStat, TotalUnresolved;
    DrainedStateIsSequential(n, batch, steps);
    ManagerBooksGood(Dispatched(steps));
    NothingUnresolved(s.managers);
    forall k | 0 <= k < n
      ensures ShardList(Lists(parts)[k], m.books, n, k, depth)
    {
      assert IsManagerSnapshot(parts[k], s.managers[k], eventCount, timestamp, depth);
    }
    MergedSnapshotIsSequential(n, m.books, Lists(parts), merged.instruments, depth);
    forall stat: Stat
      ensures SumStat(s.managers, stat) == TotalStat(m.books, stat)
    {
      CountersAddUp(s.managers, m.books, n, stat);
    }
  }

  // ---- an example ----

  /** Order 1 is placed in instrument 1 and then cancelled under instrument 2. */
  function StrayCancel(): seq<Event> {
    [Event(0, 1, Bid, 100, 5, Add, 1, 0, 0), Event(1, 1, Bid, 100, 5, Cancel, 2, 0, 1)]
  }

  /** The router then forgets an order that still rests. */
  lemma StrayCancelMisleadsRouter()
    ensures !CancelConsistentStream(StrayCancel())
    ensures RouterExactAfter(StrayCancel()[..1]) && !RouterExactAfter(StrayCancel())
  {
    var events := StrayCancel();
    var placed := events[..1];
    assert events[..0] == [] && placed[..0] == [] && placed + [events[1]] == events && [] + [events[0]] == placed;
    var m := ManagerRun(EMPTY_MANAGER, placed);
    FirstPlaced(placed);
    assert !CancelConsistent(m.books, events[1]);
    hide RouterExactAfter, CancelConsistent, ManagerRun;
    ExactStep(placed, events[1]);
  }

  lemma FirstPlaced(events: seq<Event>)
    requires events == [StrayCancel()[0]]
    ensures RouterExactAfter(events) && Home(ManagerRun(EMPTY_MANAGER, events).books, 1) == 1
  {
    var none: seq<Event> := [];
    assert events[..0] == none && none + [events[0]] == events;
    assert ManagerRun(EMPTY_MANAGER, none) == EMPTY_MANAGER && RouteAll(NEW_FRONT, none) == NEW_FRONT;
    assert RouterExactAfter(none);
    ExactStep(none, events[0]);
    ManagerRunGood(events);
    HomeIs(ManagerRun(EMPTY_MANAGER, events).books, 1, 1);
    hide RouterExactAfter;
  }
}
