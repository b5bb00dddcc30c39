/** The heap merge over queues that end with a marker, and the dispatcher behind it. */
module MergeQueues {
  import opened Domain
  import opened Channels
  import opened Merging

  datatype QueueItem = Data(event: Event) | End

  /** What a producer pushes for a file: its events, then the end marker. */
  function StreamOf(events: seq<Event>): (s: seq<QueueItem>)
    ensures |s| == |events| + 1
    ensures forall k :: 0 <= k < |events| ==> s[k] == Data(events[k])
    ensures s[|events|] == End
  {
    seq(|events|, k requires 0 <= k < |events| => Data(events[k])) + [End]
  }

  datatype HeapNode = HeapNode(event: Event, index: nat)

  /** No node of the heap comes strictly before this one. */
  predicate IsTop(heap: multiset<HeapNode>, node: HeapNode) {
    node in heap && forall other :: other in heap ==> !ComesBefore(other.event, node.event)
  }

  lemma {:induction false} TopExists(heap: multiset<HeapNode>)
    requires |heap| > 0
    ensures exists node :: IsTop(heap, node)
    decreases |heap|
  {
    var node :| node in heap;
    var rest := heap - multiset{node};
    assert heap == rest + multiset{node};
    if |rest| == 0 {
      assert IsTop(heap, node);
    } else {
      TopExists(rest);
      var top :| IsTop(rest, top);
      TopOfMore(rest, top, node);
      assert IsTop(heap, if ComesBefore(node.event, top.event) then node else top);
    }
  }

  lemma TopOfMore(rest: multiset<HeapNode>, top: HeapNode, node: HeapNode)
    requires IsTop(rest, top)
    ensures IsTop(rest + multiset{node}, if ComesBefore(node.event, top.event) then node else top)
  {
  }

  /** The events taken from input k, in output order. */
  ghost function Taken(merged: seq<Event>, sources: seq<nat>, k: nat): seq<Event>
    requires |merged| == |sources|
  {
    if merged == [] then []
    else
      var n := |merged| - 1;
      Taken(merged[..n], sources[..n], k) + if sources[n] == k then [merged[n]] else []
  }

  /** Each output event comes from one input, and each input is taken completely and in order. */
  ghost predicate Interleaves(merged: seq<Event>, sources: seq<nat>, inputs: Inputs) {
    && |merged| == |sources|
    && (forall i :: 0 <= i < |sources| ==> sources[i] < |inputs|)
    && (forall k :: 0 <= k < |inputs| ==> Taken(merged, sources, k) == inputs[k])
  }

  /** No event strictly before an earlier one; equal keys may stand in any order. */
  ghost predicate Sorted(s: seq<Event>) {
    forall i, j :: 0 <= i < j < |s| ==> !ComesBefore(s[j], s[i])
  }

  ghost predicate AllSorted(inputs: Inputs) {
    forall k :: 0 <= k < |inputs| ==> Sorted(inputs[k])
  }

  /** State of input k: not read yet, its head in the heap exactly once, or read to the end. */
  ghost predicate SlotOk(inputs: Inputs, pos: seq<nat>, heap: multiset<HeapNode>, taken: seq<Event>, k: nat)
    requires k < |inputs| == |pos|
  {
    var n := |inputs[k]|;
    if 0 < pos[k] <= n then
      heap[HeapNode(inputs[k][pos[k] - 1], k)] == 1 && taken == inputs[k][..pos[k] - 1]
    else if pos[k] == 0 then taken == []
    else pos[k] == n + 1 && taken == inputs[k]
  }

  /** Every heap node is the head of an input that is still open. */
  ghost predicate NodesOk(inputs: Inputs, pos: seq<nat>, heap: multiset<HeapNode>)
    requires |inputs| == |pos|
  {
    forall node :: node in heap ==>
      && node.index < |inputs|
      && 0 < pos[node.index] <= |inputs[node.index]|
      && node.event == inputs[node.index][pos[node.index] - 1]
  }

  ghost predicate StateOk(
    inputs: Inputs, pos: seq<nat>, heap: multiset<HeapNode>, merged: seq<Event>, sources: seq<nat>)
  {
    && |inputs| == |pos| && |merged| == |sources|
    && (forall i :: 0 <= i < |sources| ==> sources[i] < |inputs|)
    && NodesOk(inputs, pos, heap)
    && (forall k :: 0 <= k < |inputs| ==> SlotOk(inputs, pos, heap, Taken(merged, sources, k), k))
  }

  /** All that was emitted stands at or before every heap node. */
  ghost predicate OrderOk(heap: multiset<HeapNode>, merged: seq<Event>) {
    Sorted(merged) && forall x, node :: x in merged && node in heap ==> !ComesBefore(node.event, x)
  }

  ghost predicate StrictOk(heap: multiset<HeapNode>, merged: seq<Event>) {
    StrictlySorted(merged) && forall x, node :: x in merged && node in heap ==> ComesBefore(x, node.event)
  }

  /** Popping the next item of input k. */
  method PopInput(ghost inputs: Inputs, streams: seq<seq<QueueItem>>, pos: seq<nat>, k: nat)
    returns (item: QueueItem, pos': seq<nat>)
    requires |inputs| == |streams| == |pos| && k < |pos| && pos[k] <= |inputs[k]|
    requires streams[k] == StreamOf(inputs[k])
    ensures item == StreamOf(inputs[k])[pos[k]] && pos' == pos[k := pos[k] + 1]
  {
    item := streams[k][pos[k]];
    pos' := pos[k := pos[k] + 1];
  }

  /** Ready to pop input k: all of it that was popped has been emitted, every other input is in order. */
  ghost predicate AwaitsInput(
    inputs: Inputs, pos: seq<nat>, heap: multiset<HeapNode>, merged: seq<Event>, sources: seq<nat>, k: nat)
  {
    && |inputs| == |pos| && |merged| == |sources| && k < |inputs| && pos[k] <= |inputs[k]|
    && (forall i :: 0 <= i < |sources| ==> sources[i] < |inputs|)
    && NodesOk(inputs, pos, heap)
    && (forall node :: node in heap ==> node.index != k)
    && (forall j :: 0 <= j < |inputs| && j != k ==> SlotOk(inputs, pos, heap, Taken(merged, sources, j), j))
    && Taken(merged, sources, k) == inputs[k][..pos[k]]
  }

  ghost function HeapAfterPop(inputs: Inputs, pos: seq<nat>, heap: multiset<HeapNode>, k: nat): multiset<HeapNode>
    requires |inputs| == |pos| && k < |inputs|
  {
    if pos[k] < |inputs[k]| then heap + multiset{HeapNode(inputs[k][pos[k]], k)} else heap
  }

  /** A pop of input k, its node pushed unless it is the end marker. */
  lemma RefillOk(
    inputs: Inputs, pos: seq<nat>, heap: multiset<HeapNode>, merged: seq<Event>, sources: seq<nat>, k: nat)
    requires AwaitsInput(inputs, pos, heap, merged, sources, k)
    ensures StateOk(inputs, pos[k := pos[k] + 1], HeapAfterPop(inputs, pos, heap, k), merged, sources)
  {
    var pos', heap' := pos[k := pos[k] + 1], HeapAfterPop(inputs, pos, heap, k);
    forall j | 0 <= j < |inputs|
      ensures SlotOk(inputs, pos', heap', Taken(merged, sources, j), j)
    {
      if j == k && pos[k] < |inputs[k]| {
        assert HeapNode(inputs[k][pos[k]], k) !in heap;
      } else if j == k {
        assert inputs[k][..pos[k]] == inputs[k];
      }
    }
  }

  /** Emitting the top node leaves its input to be popped next. */
  lemma EmitOk(
    inputs: Inputs, pos: seq<nat>, heap: multiset<HeapNode>, merged: seq<Event>, sources: seq<nat>, top: HeapNode)
    requires StateOk(inputs, pos, heap, merged, sources) && top in heap
    ensures AwaitsInput(inputs, pos, heap - multiset{top}, merged + [top.event], sources + [top.index], top.index)
  {
    var k := top.index;
    var merged', sources' := merged + [top.event], sources + [k];
    assert merged'[..|merged|] == merged && sources'[..|merged|] == sources;
    forall j | 0 <= j < |inputs|
      ensures Taken(merged', sources', j) == Taken(merged, sources, j) + if j == k then [top.event] else []
    {
    }
    assert SlotOk(inputs, pos, heap, Taken(merged, sources, k), k);
    assert Taken(merged', sources', k) == inputs[k][..pos[k]];
    var heap' := heap - multiset{top};
    forall node | node in heap'
      ensures node.index != k
    {
      assert node in heap;
    }
    forall j | 0 <= j < |inputs| && j != k
      ensures SlotOk(inputs, pos, heap', Taken(merged', sources', j), j)
    {
      assert SlotOk(inputs, pos, heap, Taken(merged, sources, j), j);
    }
  }

  /** Emitting a top node keeps the output sorted, and the node that replaces it stands no earlier. */
  lemma EmitInOrder(heap: multiset<HeapNode>, merged: seq<Event>, top: HeapNode, heap': multiset<HeapNode>)
    requires OrderOk(heap, merged) && IsTop(heap, top)
    requires forall node :: node in heap' ==> node in heap || !ComesBefore(node.event, top.event)
    ensures OrderOk(heap', merged + [top.event])
  {
    forall i | 0 <= i < |merged|
      ensures !ComesBefore(top.event, merged[i])
    {
      assert merged[i] in merged;
    }
    forall x, node | x in merged + [top.event] && node in heap'
      ensures !ComesBefore(node.event, x)
    {
      if x in merged {
        assert !ComesBefore(top.event, x);
      }
    }
  }

  lemma EmitStrictly(heap: multiset<HeapNode>, merged: seq<Event>, top: HeapNode, heap': multiset<HeapNode>)
    requires StrictOk(heap, merged) && top in heap
    requires forall node :: node in heap' ==> ComesBefore(top.event, node.event)
    ensures StrictOk(heap', merged + [top.event])
  {
    forall i | 0 <= i < |merged|
      ensures ComesBefore(merged[i], top.event)
    {
      assert merged[i] in merged;
    }
    forall x, node | x in merged + [top.event] && node in heap'
      ensures ComesBefore(x, node.event)
    {
      if x in merged {
        assert ComesBefore(x, top.event);
      }
    }
  }

  /** After the refill every node of a sorted merge stands at or after the emitted event. */
  lemma RefilledAfter(inputs: Inputs, pos: seq<nat>, heap: multiset<HeapNode>, top: HeapNode)
    requires |inputs| == |pos| && NodesOk(inputs, pos, heap) && IsTop(heap, top) && heap[top] == 1
    ensures
      var heap' := HeapAfterPop(inputs, pos, heap - multiset{top}, top.index);
      && (Sorted(inputs[top.index]) ==>
            forall node :: node in heap' ==> node in heap || !ComesBefore(node.event, top.event))
      && (GoodInputs(inputs) ==> forall node :: node in heap' ==> ComesBefore(top.event, node.event))
  {
    var k := top.index;
    var heap' := HeapAfterPop(inputs, pos, heap - multiset{top}, k);
    if GoodInputs(inputs) {
      forall node | node in heap'
        ensures ComesBefore(top.event, node.event)
      {
        if node in heap - multiset{top} {
          assert node in heap && node != top;
          assert node.event in inputs[node.index] && top.event in inputs[k];
        } else {
          assert StrictlySorted(inputs[k]);
        }
      }
    }
  }

  lemma OrderStep(
    inputs: Inputs, pos: seq<nat>, heap: multiset<HeapNode>, top: HeapNode, merged: seq<Event>)
    requires |inputs| == |pos| && NodesOk(inputs, pos, heap) && IsTop(heap, top) && heap[top] == 1
    requires top.index < |inputs|
    requires AllSorted(inputs) ==> OrderOk(heap, merged)
    requires GoodInputs(inputs) ==> StrictOk(heap, merged)
    ensures
      var heap' := HeapAfterPop(inputs, pos, heap - multiset{top}, top.index);
      && (AllSorted(inputs) ==> OrderOk(heap', merged + [top.event]))
      && (GoodInputs(inputs) ==> StrictOk(heap', merged + [top.event]))
  {
    var heap' := HeapAfterPop(inputs, pos, heap - multiset{top}, top.index);
    RefilledAfter(inputs, pos, heap, top);
    assert top in heap;
    assert AllSorted(inputs) ==> Sorted(inputs[top.index]);
    hide *;
    if AllSorted(inputs) {
      EmitInOrder(heap, merged, top, heap');
    }
    if GoodInputs(inputs) {
      EmitStrictly(heap, merged, top, heap');
    }
  }

  ghost function Left(streams: seq<seq<QueueItem>>, pos: seq<nat>): int
    requires |streams| == |pos|
  {
    if streams == [] then 0 else |streams[0]| - pos[0] + Left(streams[1..], pos[1..])
  }

  lemma {:induction false} LeftShrinks(streams: seq<seq<QueueItem>>, pos: seq<nat>, k: nat)
    requires k < |streams| == |pos|
    ensures Left(streams, pos[k := pos[k] + 1]) == Left(streams, pos) - 1
  {
    if k == 0 {
      assert pos[k := pos[k] + 1][1..] == pos[1..];
    } else {
      LeftShrinks(streams[1..], pos[1..], k - 1);
      assert pos[k := pos[k] + 1][1..] == pos[1..][k - 1 := pos[k] + 1];
    }
  }

  lemma {:induction false} LeftNonNegative(streams: seq<seq<QueueItem>>, pos: seq<nat>)
    requires |streams| == |pos| && forall k :: 0 <= k < |pos| ==> pos[k] <= |streams[k]|
    ensures Left(streams, pos) >= 0
  {
    if streams != [] {
      LeftNonNegative(streams[1..], pos[1..]);
    }
  }

  lemma OpenNode(
    inputs: Inputs, pos: seq<nat>, heap: multiset<HeapNode>, merged: seq<Event>, sources: seq<nat>, top: HeapNode)
    requires StateOk(inputs, pos, heap, merged, sources) && top in heap
    ensures top.index < |inputs| && 0 < pos[top.index] <= |inputs[top.index]| && heap[top] == 1
  {
    assert SlotOk(inputs, pos, heap, Taken(merged, sources, top.index), top.index);
  }

  lemma SomethingLeft(
    inputs: Inputs, streams: seq<seq<QueueItem>>, pos: seq<nat>, heap: multiset<HeapNode>,
    merged: seq<Event>, sources: seq<nat>)
    requires StateOk(inputs, pos, heap, merged, sources) && |streams| == |inputs|
    requires forall k :: 0 <= k < |inputs| ==> streams[k] == StreamOf(inputs[k])
    ensures Left(streams, pos) >= 0
  {
    forall k | 0 <= k < |pos|
      ensures pos[k] <= |streams[k]|
    {
      assert SlotOk(inputs, pos, heap, Taken(merged, sources, k), k);
    }
    LeftNonNegative(streams, pos);
  }

  lemma AllTaken(
    inputs: Inputs, pos: seq<nat>, heap: multiset<HeapNode>, merged: seq<Event>, sources: seq<nat>)
    requires StateOk(inputs, pos, heap, merged, sources) && |heap| == 0
    requires forall k :: 0 <= k < |pos| ==> pos[k] > 0
    ensures Interleaves(merged, sources, inputs)
  {
    forall k | 0 <= k < |inputs|
      ensures Taken(merged, sources, k) == inputs[k]
    {
      assert SlotOk(inputs, pos, heap, Taken(merged, sources, k), k);
    }
  }

  /** The priming loop: the head of every input that is not empty goes into the heap. */
  method Prime(ghost inputs: Inputs, streams: seq<seq<QueueItem>>)
    returns (pos: seq<nat>, heap: multiset<HeapNode>)
    requires |inputs| == |streams| && forall k :: 0 <= k < |inputs| ==> streams[k] == StreamOf(inputs[k])
    ensures StateOk(inputs, pos, heap, [], []) && |pos| == |inputs| && forall k :: 0 <= k < |pos| ==> pos[k] == 1
  {
    pos := seq(|streams|, _ => 0);
    heap := multiset{};
    for k := 0 to |streams|
      invariant StateOk(inputs, pos, heap, [], [])
      invariant forall j :: 0 <= j < |pos| ==> pos[j] == if j < k then 1 else 0
    {
      assert AwaitsInput(inputs, pos, heap, [], [], k);
      RefillOk(inputs, pos, heap, [], [], k);
      var item;
      item, pos := PopInput(inputs, streams, pos, k);
      if item.Data? {
        heap := heap + multiset{HeapNode(item.event, k)};
      }
    }
  }

  lemma NewHeap(inputs: Inputs, pos: seq<nat>, heap: multiset<HeapNode>, k: nat, item: QueueItem)
    requires |inputs| == |pos| && k < |inputs| && pos[k] <= |inputs[k]| && item == StreamOf(inputs[k])[pos[k]]
    ensures HeapAfterPop(inputs, pos, heap, k)
         == if item.Data? then heap + multiset{HeapNode(item.event, k)} else heap
  {
  }

  /** One pass of the merge loop: take the top node, then pop its input again. */
  method EmitTop(
    ghost inputs: Inputs, streams: seq<seq<QueueItem>>, pos: seq<nat>, heap: multiset<HeapNode>,
    ghost merged: seq<Event>, ghost sources: seq<nat>)
    returns (top: HeapNode, pos': seq<nat>, heap': multiset<HeapNode>)
    requires |inputs| == |streams| && forall k :: 0 <= k < |inputs| ==> streams[k] == StreamOf(inputs[k])
    requires StateOk(inputs, pos, heap, merged, sources) && |heap| > 0
    ensures StateOk(inputs, pos', heap', merged + [top.event], sources + [top.index])
    ensures top.index < |pos| == |inputs| && pos' == pos[top.index := pos[top.index] + 1]
    ensures 0 <= Left(streams, pos') < Left(streams, pos)
    ensures IsTop(heap, top) && NodesOk(inputs, pos, heap) && heap[top] == 1
    ensures heap' == HeapAfterPop(inputs, pos, heap - multiset{top}, top.index)
  {
    TopExists(heap);
    top :| IsTop(heap, top);
    assert top in heap;
    assert NodesOk(inputs, pos, heap);
    hide *;
    OpenNode(inputs, pos, heap, merged, sources, top);
    EmitOk(inputs, pos, heap, merged, sources, top);
    RefillOk(inputs, pos, heap - multiset{top}, merged + [top.event], sources + [top.index], top.index);
    LeftShrinks(streams, pos, top.index);
    heap' := heap - multiset{top};
    var item;
    item, pos' := PopInput(inputs, streams, pos, top.index);
    if item.Data? {
      heap' := heap' + multiset{HeapNode(item.event, top.index)};
    }
    assert heap' == HeapAfterPop(inputs, pos, heap - multiset{top}, top.index) by {
      NewHeap(inputs, pos, heap - multiset{top}, top.index, item);
    }
    SomethingLeft(inputs, streams, pos', heap', merged + [top.event], sources + [top.index]);
  }

  /** The merge loop: emit until the heap is empty. */
  method EmitAll(ghost inputs: Inputs, streams: seq<seq<QueueItem>>, start: seq<nat>, primed: multiset<HeapNode>)
    returns (output: seq<QueueItem>, ghost merged: seq<Event>, ghost sources: seq<nat>)
    requires |inputs| == |streams| && forall k :: 0 <= k < |inputs| ==> streams[k] == StreamOf(inputs[k])
    requires StateOk(inputs, start, primed, [], [])
    requires |start| == |inputs| && forall k :: 0 <= k < |start| ==> start[k] == 1
    requires OrderOk(primed, []) && StrictOk(primed, [])
    ensures |output| == |merged| && forall i :: 0 <= i < |output| ==> output[i] == Data(merged[i])
    ensures Interleaves(merged, sources, inputs)
    ensures AllSorted(inputs) ==> OrderOk(multiset{}, merged)
    ensures GoodInputs(inputs) ==> StrictOk(multiset{}, merged)
  {
    hide *;
    output, merged, sources := [], [], [];
    var pos, heap := start, primed;
    while |heap| > 0
      invariant StateOk(inputs, pos, heap, merged, sources)
      invariant |pos| == |inputs| && forall k :: 0 <= k < |pos| ==> pos[k] > 0
      invariant |output| == |merged| && forall i :: 0 <= i < |output| ==> output[i] == Data(merged[i])
      invariant AllSorted(inputs) ==> OrderOk(heap, merged)
      invariant GoodInputs(inputs) ==> StrictOk(heap, merged)
      decreases Left(streams, pos)
    {
      ghost var before, posBefore := heap, pos;
      var top;
      top, pos, heap := EmitTop(inputs, streams, pos, heap, merged, sources);
      OrderStep(inputs, posBefore, before, top, merged);
      output := output + [Data(top.event)];
      merged, sources := merged + [top.event], sources + [top.index];
    }
    AllTaken(inputs, pos, heap, merged, sources);
    assert heap == multiset{};
  }

  /** The output is the stream of an interleaving of the inputs, sorted when they are. */
  ghost predicate InterleavedStream(output: seq<QueueItem>, inputs: Inputs) {
    exists merged, sources ::
      && Interleaves(merged, sources, inputs) && output == StreamOf(merged)
      && (AllSorted(inputs) ==> Sorted(merged))
  }

  /** The multiway merge over ended queues. Whatever the inputs, the output interleaves them, each taken
      completely and in order, and no queue is popped beyond its end marker; sorted inputs give a sorted
      output, and inputs with distinct keys give the merge. */
  method MergeInputQueues(ghost inputs: Inputs, streams: seq<seq<QueueItem>>) returns (output: seq<QueueItem>)
    requires |inputs| == |streams| && forall k :: 0 <= k < |inputs| ==> streams[k] == StreamOf(inputs[k])
    ensures InterleavedStream(output, inputs)
    ensures GoodInputs(inputs) ==> output == StreamOf(Merged(inputs)) && InSourceOrder(Merged(inputs))
  {
    var pos, heap := Prime(inputs, streams);
    ghost var merged, sources;
    output, merged, sources := EmitAll(inputs, streams, pos, heap);
    output := output + [End];
    assert output == StreamOf(merged);
    assert AllSorted(inputs) ==> Sorted(merged);
    assert InterleavedStream(output, inputs);
    if GoodInputs(inputs) {
      StrictIsMerge(multiset{}, merged, sources, inputs);
      MergedInSourceOrder(inputs);
    }
    hide *;
  }

  lemma StrictIsMerge(heap: multiset<HeapNode>, merged: seq<Event>, sources: seq<nat>, inputs: Inputs)
    requires StrictOk(heap, merged) && Interleaves(merged, sources, inputs) && GoodInputs(inputs)
    ensures merged == Merged(inputs)
  {
    InterleavingIsComplete(merged, sources, inputs);
    MergeUnique(merged, Merged(inputs), inputs);
  }

  /** An interleaving has exactly the events of its inputs. */
  lemma {:induction false} InterleavingIsComplete(merged: seq<Event>, sources: seq<nat>, inputs: Inputs)
    requires Interleaves(merged, sources, inputs)
    ensures multiset(merged) == multiset(Concat(inputs))
    decreases |merged|, 1
  {
    if merged == [] {
      NoEvents(inputs);
      hide Interleaves;
    } else {
      hide Interleaves, Concat;
      LastTakenApart(merged, sources, inputs);
    }
  }

  lemma LastTakenApart(merged: seq<Event>, sources: seq<nat>, inputs: Inputs)
    requires Interleaves(merged, sources, inputs) && merged != []
    ensures multiset(merged) == multiset(Concat(inputs))
    decreases |merged|, 0
  {
    ShorterInterleaves(merged, sources, inputs);
    var n := |merged| - 1;
    var k, front, fronts := sources[n], merged[..n], sources[..n];
    var shorter := inputs[k := Taken(front, fronts, k)];
    hide Interleaves, Taken, Concat;
    InterleavingIsComplete(front, fronts, shorter);
    assert merged == front + [merged[n]];
    AppendToOne(front, inputs, k, shorter[k], merged[n]);
  }

  lemma AppendToOne(front: seq<Event>, inputs: Inputs, k: nat, shorter: seq<Event>, last: Event)
    requires k < |inputs| && inputs[k] == shorter + [last]
    requires multiset(front) == multiset(Concat(inputs[k := shorter]))
    ensures multiset(front + [last]) == multiset(Concat(inputs))
  {
    forall x: Event
      ensures multiset(front + [last])[x] == multiset(Concat(inputs))[x]
    {
      ConcatUpdate(inputs, k, shorter, x);
      CountAppend(front, last, x);
      CountAppend(shorter, last, x);
    }
  }

  lemma CountAppend<T>(s: seq<T>, last: T, x: T)
    ensures multiset(s + [last])[x] == multiset(s)[x] + if x == last then 1 else 0
  {
  }

  lemma ShorterInterleaves(merged: seq<Event>, sources: seq<nat>, inputs: Inputs)
    requires Interleaves(merged, sources, inputs) && merged != []
    ensures
      var n := |merged| - 1;
      var k, taken := sources[n], Taken(merged[..n], sources[..n], sources[n]);
      && Interleaves(merged[..n], sources[..n], inputs[k := taken])
      && inputs[k] == taken + [merged[n]]
  {
    var n := |merged| - 1;
    var front, fronts := merged[..n], sources[..n];
    forall j | 0 <= j < |inputs|
      ensures Taken(front, fronts, j) == if j == sources[n] then Taken(front, fronts, j) else inputs[j]
    {
    }
  }
}
