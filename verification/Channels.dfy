/** The batched single-producer single-consumer queue. The simple form is the whole history of pushes
    with two marks: how much is visible to the consumer and how much it has popped. The class keeps
    the batches the program keeps. Publishing a batch and acquiring one are atomic steps. */
module Channels {
  import opened Domain

  datatype Channel<T> = Channel(batch: nat, pushed: seq<T>, visible: nat, popped: nat) {
    predicate Valid() {
      && 0 < batch
      && popped <= visible <= |pushed| < visible + batch
    }

    predicate CanPop() {
      popped < visible
    }

    /** A push publishes once a full batch has gathered. */
    function Push(x: T): Channel<T> {
      var all := pushed + [x];
      Channel(batch, all, if |all| >= visible + batch then |all| else visible, popped)
    }

    function Flush(): Channel<T> {
      this.(visible := |pushed|)
    }

    function Front(): T
      requires Valid() && CanPop()
    {
      pushed[popped]
    }

    function Pop(): Channel<T>
      requires CanPop()
    {
      this.(popped := popped + 1)
    }
  }

  function Empty<T>(batch: nat): Channel<T> {
    Channel(batch, [], 0, 0)
  }

  function Concat<T>(batches: seq<seq<T>>): seq<T> {
    if batches == [] then [] else batches[0] + Concat(batches[1..])
  }

  lemma {:induction false} ConcatAppend<T>(batches: seq<seq<T>>, last: seq<T>)
    ensures Concat(batches + [last]) == Concat(batches) + last
  {
    if batches == [] {
      assert [last][1..] == [];
      assert Concat([last]) == last + Concat([]);
    } else {
      assert (batches + [last])[1..] == batches[1..] + [last];
      ConcatAppend(batches[1..], last);
    }
  }

  lemma {:induction false} InConcat<T>(lists: seq<seq<T>>, x: T)
    ensures x in Concat(lists) <==> exists j :: 0 <= j < |lists| && x in lists[j]
  {
    if lists != [] {
      InConcat(lists[1..], x);
      if x in Concat(lists[1..]) {
        var j :| 0 <= j < |lists[1..]| && x in lists[1..][j];
        assert x in lists[j + 1];
      }
      if j :| 0 <= j < |lists| && x in lists[j] {
        assert j > 0 ==> x in lists[1..][j - 1];
      }
    }
  }

  class BatchQueue<T> {
    const batchSize: nat
    var published: seq<seq<T>>
    var producerBatch: seq<T>
    var consumerBatch: seq<T>
    var consumerIndex: nat
    var enqueued: nat
    var dequeued: nat
    ghost var pushedItems: seq<T>
    ghost var poppedItems: seq<T>

    /** Popped, then unread in the consumer's batch, then published, then still with the producer:
        together exactly what was pushed. No published batch is empty. */
    ghost predicate Valid()
      reads this
    {
      && 0 < batchSize
      && |producerBatch| < batchSize
      && consumerIndex <= |consumerBatch|
      && (forall k :: 0 <= k < |published| ==> published[k] != [])
      && poppedItems + Unread() + producerBatch == pushedItems
      && enqueued == |pushedItems| && dequeued == |poppedItems|
    }

    ghost function Unread(): seq<T>
      reads this
      requires consumerIndex <= |consumerBatch|
    {
      consumerBatch[consumerIndex..] + Concat(published)
    }

    ghost function Value(): (c: Channel<T>)
      reads this
      requires Valid()
      ensures c.Valid() && |c.pushed| == enqueued && c.popped == dequeued
    {
      Channel(batchSize, pushedItems, |pushedItems| - |producerBatch|, dequeued)
    }

    constructor (batchSize: nat)
      requires batchSize > 0
      ensures Valid() && Value() == Empty(batchSize) && poppedItems == []
    {
      this.batchSize := batchSize;
      published, producerBatch, consumerBatch, consumerIndex := [], [], [], 0;
      enqueued, dequeued, pushedItems, poppedItems := 0, 0, [], [];
    }

    method Push(x: T)
      requires Valid()
      modifies this
      ensures Valid() && Value() == old(Value()).Push(x) && poppedItems == old(poppedItems)
    {
      producerBatch := producerBatch + [x];
      enqueued := enqueued + 1;
      pushedItems := pushedItems + [x];
      if |producerBatch| >= batchSize {
        Publish();
      }
    }

    method Flush()
      requires Valid()
      modifies this
      ensures Valid() && Value() == old(Value()).Flush() && poppedItems == old(poppedItems)
    {
      if producerBatch == [] {
        return;
      }
      Publish();
    }

    /** Link the producer's batch behind the last published one. */
    method Publish()
      requires 0 < batchSize && producerBatch != [] && consumerIndex <= |consumerBatch|
      modifies `published, `producerBatch
      ensures published == old(published) + [old(producerBatch)] && producerBatch == []
      ensures Unread() == old(Unread()) + old(producerBatch)
    {
      ConcatAppend(published, producerBatch);
      published := published + [producerBatch];
      producerBatch := [];
    }

    /** Blocking pop, taken at a moment when its wait is over. */
    method Pop() returns (x: T)
      requires Valid() && Value().CanPop()
      modifies this
      ensures Valid() && Value() == old(Value()).Pop()
      ensures x == old(Value().Front()) && poppedItems == old(poppedItems) + [x]
    {
      if consumerIndex >= |consumerBatch| {
        var acquired := AcquireConsumerBatch();
        assert acquired;
      }
      x := Take();
    }

    /** Non-blocking pop: it fails exactly when nothing published is unread. */
    method TryPop() returns (r: Option<T>)
      requires Valid()
      modifies this
      ensures Valid()
      ensures r == None <==> !old(Value()).CanPop()
      ensures r == None ==> Value() == old(Value()) && poppedItems == old(poppedItems)
      ensures r.Some? ==>
        && Value() == old(Value()).Pop()
        && r.value == old(Value()).Front() && poppedItems == old(poppedItems) + [r.value]
    {
      if consumerIndex >= |consumerBatch| {
        var acquired := AcquireConsumerBatch();
        if !acquired {
          return None;
        }
      }
      var x := Take();
      r := Some(x);
    }

    method Take() returns (x: T)
      requires Valid() && consumerIndex < |consumerBatch|
      modifies `consumerIndex, `dequeued, `poppedItems
      ensures Valid() && Value() == old(Value()).Pop()
      ensures x == old(Value().Front()) && poppedItems == old(poppedItems) + [x]
    {
      x := consumerBatch[consumerIndex];
      assert Unread() == [x] + (consumerBatch[consumerIndex + 1..] + Concat(published));
      dequeued := dequeued + 1;
      consumerIndex := consumerIndex + 1;
      poppedItems := poppedItems + [x];
    }

    /** Swap in the next published batch when there is one. */
    method AcquireConsumerBatch() returns (acquired: bool)
      requires Valid() && consumerIndex >= |consumerBatch|
      modifies `consumerBatch, `consumerIndex, `published
      ensures Valid() && Value() == old(Value())
      ensures acquired == old(Value()).CanPop()
      ensures acquired ==> consumerIndex < |consumerBatch|
    {
      consumerBatch, consumerIndex := [], 0;
      if published == [] {
        return false;
      }
      consumerBatch := published[0];
      published := published[1..];
      acquired := true;
    }
  }

  // ---- every interleaving of the two ends ----

  datatype Op<T> = PushOp(x: T) | FlushOp | TryPopOp

  function Perform<T>(c: Channel<T>, op: Op<T>): Channel<T> {
    match op
    case PushOp(x) => c.Push(x)
    case FlushOp => c.Flush()
    case TryPopOp => if c.CanPop() then c.Pop() else c
  }

  function Received<T>(c: Channel<T>, op: Op<T>): seq<T>
    requires c.Valid()
  {
    if op.TryPopOp? && c.CanPop() then [c.Front()] else []
  }

  function PerformAll<T>(c: Channel<T>, ops: seq<Op<T>>): Channel<T> {
    if ops == [] then c else Perform(PerformAll(c, ops[..|ops| - 1]), ops[|ops| - 1])
  }

  function Sent<T>(ops: seq<Op<T>>): seq<T> {
    if ops == [] then []
    else Sent(ops[..|ops| - 1]) + if ops[|ops| - 1].PushOp? then [ops[|ops| - 1].x] else []
  }

  function ReceivedAll<T>(batch: nat, ops: seq<Op<T>>): seq<T>
    requires batch > 0
  {
    InterleavingKeepsOrder(batch, ops);
    if ops == [] then []
    else
      InterleavingKeepsOrder(batch, ops[..|ops| - 1]);
      ReceivedAll(batch, ops[..|ops| - 1]) + Received(PerformAll(Empty(batch), ops[..|ops| - 1]), ops[|ops| - 1])
  }

  /** However pushes, flushes and pops interleave, nothing is lost, duplicated or reordered. */
  lemma {:induction false} InterleavingKeepsOrder<T>(batch: nat, ops: seq<Op<T>>)
    requires batch > 0
    ensures
      var c := PerformAll(Empty(batch), ops);
      c.Valid() && c.pushed == Sent(ops) && c.batch == batch
  {
    if ops != [] {
      InterleavingKeepsOrder(batch, ops[..|ops| - 1]);
    }
  }

  lemma {:induction false} ReceivedIsPrefix<T>(batch: nat, ops: seq<Op<T>>)
    requires batch > 0
    ensures
      var c := PerformAll(Empty(batch), ops);
      c.Valid() && c.pushed == Sent(ops) && ReceivedAll(batch, ops) == c.pushed[..c.popped]
  {
    InterleavingKeepsOrder(batch, ops);
    if ops != [] {
      var before := ops[..|ops| - 1];
      InterleavingKeepsOrder(batch, before);
      ReceivedIsPrefix(batch, before);
    }
  }

  /** Without a flush the consumer sees whole batches only: of n items sent, the largest multiple of the batch size. */
  lemma {:induction false} WholeBatchesVisible<T>(batch: nat, ops: seq<Op<T>>)
    requires batch > 0 && forall k :: 0 <= k < |ops| ==> !ops[k].FlushOp?
    ensures
      var c := PerformAll(Empty(batch), ops);
      exists k: nat :: c.visible == k * batch <= |Sent(ops)| < k * batch + batch
  {
    InterleavingKeepsOrder(batch, ops);
    if ops == [] {
      assert 0 * batch == 0;
    } else {
      var before := ops[..|ops| - 1];
      InterleavingKeepsOrder(batch, before);
      WholeBatchesVisible(batch, before);
      var c, c' := PerformAll(Empty(batch), before), PerformAll(Empty(batch), ops);
      var k: nat :| c.visible == k * batch <= |Sent(before)| < k * batch + batch;
      assert (k + 1) * batch == k * batch + batch;
      assert c'.visible == k * batch || c'.visible == (k + 1) * batch;
    }
  }
}
