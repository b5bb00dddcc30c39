/** The two kinds of threads of the sharded processor, as the program writes them. A method is one
    atomic step of its thread; each is tied to the step function of the state machine. */
module ShardedProcessors {
  import opened Domain
  import opened Channels
  import opened BookManagers
  import opened ShardedBooks

  /** The dispatching thread: it owns the router and the producer end of every queue. */
  class Dispatcher {
    var router: Router
    var processed: nat
    var unresolved: nat
    const queues: seq<BatchQueue<Event>>

    ghost predicate Valid()
      reads queues
    {
      && |queues| > 0
      && (forall j, k :: 0 <= j < k < |queues| ==> queues[j] != queues[k])
      && (forall k :: 0 <= k < |queues| ==> queues[k].Valid())
    }

    ghost function Channels(): (c: Queues)
      requires Valid()
      reads queues
      ensures |c| == |queues| > 0
    {
      seq(|queues|, k requires 0 <= k < |queues| && Valid() reads queues => queues[k].Value())
    }

    /** The dispatcher's part of the whole state. */
    ghost function State(): Sharded
      requires Valid()
      reads this, queues
    {
      Sharded(router, processed, unresolved, Channels(), [])
    }

    constructor (queues: seq<BatchQueue<Event>>)
      requires |queues| > 0
      requires forall j, k :: 0 <= j < k < |queues| ==> queues[j] != queues[k]
      requires forall k :: 0 <= k < |queues| ==> queues[k].Valid()
      ensures Valid() && this.queues == queues && router == map[] && processed == 0 && unresolved == 0
    {
      this.queues := queues;
      router, processed, unresolved := map[], 0, 0;
    }

    method ProcessMarketDataEvent(e: Event)
      requires Valid()
      modifies this, queues
      ensures Valid() && State() == Process(old(State()), e)
    {
      hide Valid, Channels, SendAll, Messages, RouterAfter, RouterResolve;
      processed := processed + 1;
      var i := ResolveInstrumentId(e);
      if i == 0 {
        unresolved := unresolved + 1;
        return;
      }
      UpdateRouterAndDispatch(e.(instrumentId := i));
    }

    function ResolveInstrumentId(e: Event): (i: nat)
      reads `router
      ensures i == RouterResolve(router, e)
    {
      if e.instrumentId != 0 then e.instrumentId
      else if e.orderId == 0 then 0
      else if e.orderId in router then router[e.orderId].instrumentId
      else 0
    }

    method UpdateRouterAndDispatch(e: Event)
      requires Valid()
      modifies `router, queues
      ensures Valid() && router == RouterAfter(old(router), e)
      ensures Channels() == SendAll(old(Channels()), Messages(old(router), e))
    {
      hide Valid, Channels, Send, SendAll;
      SendShort(Channels(), Messages(router, e));
      var o := e.orderId;
      match e.action {
        case Add | Modify =>
          if ValidResting(e) {
            if o in router && router[o].instrumentId != e.instrumentId {
              Enqueue(FullCancel(e, router[o].instrumentId));
            }
            router := router[o := RouterOrder(e.instrumentId, e.size)];
          }
        case Cancel =>
          if o in router {
            if e.size == 0 || e.size >= router[o].size {
              router := router - {o};
            } else {
              router := router[o := router[o].(size := router[o].size - e.size)];
            }
          }
        case Clear => EraseRouterOrdersForInstrument(e.instrumentId);
        case _ =>
      }
      Enqueue(e);
    }

    /** Push to the queue of the worker that owns the event's instrument. */
    method Enqueue(e: Event)
      requires Valid()
      modifies queues
      ensures Valid() && Channels() == Send(old(Channels()), e)
    {
      var k := e.instrumentId % |queues|;
      queues[k].Push(e);
      assert Channels() == Send(old(Channels()), e);
    }

    method EraseRouterOrdersForInstrument(i: nat)
      modifies `router
      ensures router == RouterWithout(old(router), i)
    {
      var unseen := router.Keys;
      while unseen != {}
        invariant unseen <= router.Keys <= old(router).Keys
        invariant forall o :: o in router ==> router[o] == old(router)[o]
        invariant forall o :: o in old(router) && o !in unseen ==> (o in router <==> old(router)[o].instrumentId != i)
        decreases |unseen|
      {
        var o :| o in unseen;
        if router[o].instrumentId == i {
          router := router - {o};
        }
        unseen := unseen - {o};
      }
    }
  }

  /** A worker thread: it owns its books and the consumer end of its queue. */
  class WorkerThread {
    const queue: BatchQueue<Event>
    const books: BookManager

    ghost predicate Valid()
      reads this, queue, books, books.books.Values
    {
      queue.Valid() && books.Valid()
    }

    constructor (batch: nat)
      requires batch > 0
      ensures Valid() && queue.Value() == Empty(batch) && books.Value() == EMPTY_MANAGER
    {
      queue := new BatchQueue(batch);
      books := new BookManager();
    }

    /** One turn of the loop, once the blocking pop returns. */
    method Turn()
      requires Valid() && queue.Value().CanPop()
      modifies queue, books, books.books.Values
      ensures Valid() && fresh(books.books.Values - old(books.books.Values))
      ensures queue.Value() == old(queue.Value()).Pop()
      ensures books.Value() == ManagerApply(old(books.Value()), old(queue.Value()).Front())
    {
      hide BatchQueue.Valid, BatchQueue.Value, BookManager.Valid, BookManager.Value, ManagerApply;
      var e := queue.Pop();
      books.Apply(e);
    }

    /** Flush, then let the worker run until it has caught up: afterwards it has applied everything. */
    method Drain()
      requires Valid()
      modifies queue, books, books.books.Values
      ensures Valid() && fresh(books.books.Values - old(books.books.Values))
      ensures queue.Value().popped == |queue.Value().pushed| && queue.Value().pushed == old(queue.Value()).pushed
      ensures
        var q := old(queue.Value());
        books.Value() == ManagerRun(old(books.Value()), q.pushed[q.popped..])
    {
      hide BatchQueue.Valid, BatchQueue.Value, BookManager.Valid, BookManager.Value, ManagerApply;
      ghost var q := queue.Value();
      ghost var start := books.Value();
      queue.Flush();
      assert q.pushed[q.popped..q.popped] == [];
      while queue.dequeued < queue.enqueued
        invariant Valid() && fresh(books.books.Values - old(books.books.Values))
        invariant queue.Value().pushed == q.pushed && queue.Value().visible == |q.pushed|
        invariant q.popped <= queue.Value().popped
        invariant books.Value() == ManagerRun(start, q.pushed[q.popped..queue.Value().popped])
        decreases |q.pushed| - queue.Value().popped
      {
        ghost var at := queue.Value().popped;
        Turn();
        assert q.pushed[q.popped..at + 1][..at - q.popped] == q.pushed[q.popped..at];
      }
      assert q.pushed[q.popped..|q.pushed|] == q.pushed[q.popped..];
    }
  }
}
