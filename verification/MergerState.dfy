/** One merger of the network, seen through its own queues: what it has read, what it holds and what it has
    still to emit. */
module MergerStates {
  import opened Domain
  import opened Channels
  import opened Merging
  import opened MergeQueues

  /** `primed` inputs have been popped once; `heap` holds at most one event per input; `want` is the input
      whose replacement is awaited after an emission. */
  datatype MergerState = MergerState(primed: nat, heap: map<nat, Event>, want: Option<nat>, done: bool)

  const NEW_MERGER: MergerState := MergerState(0, map[], None, false)

  /** The input a merger is about to pop, if any. */
  function NextInput(ms: MergerState, k: nat): Option<nat> {
    if ms.primed < k then Some(ms.primed) else ms.want
  }

  function AfterPop(ms: MergerState, j: nat, k: nat, item: QueueItem): MergerState {
    MergerState(
      if ms.primed < k then ms.primed + 1 else ms.primed,
      if item.Data? then ms.heap[j := item.event] else ms.heap,
      None, ms.done)
  }

  predicate CanEmit(ms: MergerState, k: nat, j: nat) {
    && NextInput(ms, k) == None && j in ms.heap
    && forall i :: i in ms.heap ==> !ComesBefore(ms.heap[i], ms.heap[j])
  }

  function AfterEmit(ms: MergerState, j: nat): MergerState {
    ms.(heap := ms.heap - {j}, want := Some(j))
  }

  predicate CanClose(ms: MergerState, k: nat) {
    NextInput(ms, k) == None && ms.heap == map[] && !ms.done
  }

  /** Input j after p pops: untouched, its head in the heap, awaited, or read to the end. */
  ghost predicate SlotInv(ms: MergerState, k: nat, j: nat, p: nat, input: seq<Event>) {
    if j >= ms.primed then p == 0 && j !in ms.heap
    else if j in ms.heap then 1 <= p <= |input| && ms.heap[j] == input[p - 1]
    else if ms.want == Some(j) then 1 <= p <= |input|
    else p == |input| + 1
  }

  /** What input j still has to contribute. */
  ghost function Remaining(ms: MergerState, j: nat, p: nat, input: seq<Event>): seq<Event> {
    if j in ms.heap && 1 <= p <= |input| then input[p - 1..]
    else if p <= |input| then input[p..]
    else []
  }

  ghost function AllRemaining(ms: MergerState, pops: seq<nat>, inputs: Inputs): (r: Inputs)
    requires |pops| == |inputs|
    ensures |r| == |inputs| && forall j :: 0 <= j < |r| ==> r[j] == Remaining(ms, j, pops[j], inputs[j])
  {
    seq(|inputs|, j requires 0 <= j < |inputs| => Remaining(ms, j, pops[j], inputs[j]))
  }

  ghost predicate LocalInv(ms: MergerState, pops: seq<nat>, emitted: nat, inputs: Inputs, out: seq<Event>) {
    && |pops| == |inputs| && ms.primed <= |inputs|
    && (forall j :: j in ms.heap ==> j < ms.primed)
    && (ms.want.Some? ==> ms.primed == |inputs| && ms.want.value < |inputs| && ms.want.value !in ms.heap)
    && (forall j :: 0 <= j < |inputs| ==> SlotInv(ms, |inputs|, j, pops[j], inputs[j]))
    && (if ms.done then emitted == |out| + 1 && ms.heap == map[] && NextInput(ms, |inputs|) == None
        else emitted <= |out| && IsMerge(out[emitted..], AllRemaining(ms, pops, inputs)))
  }

  lemma SuffixesGood(inputs: Inputs, rest: Inputs, starts: seq<nat>)
    requires GoodInputs(inputs) && |rest| == |inputs| == |starts|
    requires forall j :: 0 <= j < |inputs| ==> starts[j] <= |inputs[j]| && rest[j] == inputs[j][starts[j]..]
    ensures GoodInputs(rest)
  {
    forall j, x | 0 <= j < |rest| && x in rest[j]
      ensures x in inputs[j]
    {
      assert rest[j] == inputs[j][starts[j]..];
    }
    forall j | 0 <= j < |rest|
      ensures StrictlySorted(rest[j])
    {
      assert rest[j] == inputs[j][starts[j]..] && StrictlySorted(inputs[j]);
    }
  }

  lemma RemainingGood(ms: MergerState, pops: seq<nat>, inputs: Inputs)
    requires GoodInputs(inputs) && |pops| == |inputs|
    ensures GoodInputs(AllRemaining(ms, pops, inputs))
  {
    var starts := seq(|inputs|, j requires 0 <= j < |inputs| =>
      var p, n := pops[j], |inputs[j]|;
      if j in ms.heap && 1 <= p <= n then p - 1 else if p <= n then p else n);
    SuffixesGood(inputs, AllRemaining(ms, pops, inputs), starts);
  }

  /** A pop changes nothing about what remains to be merged. */
  lemma PopLocal(ms: MergerState, pops: seq<nat>, emitted: nat, inputs: Inputs, out: seq<Event>)
    requires LocalInv(ms, pops, emitted, inputs, out) && NextInput(ms, |inputs|).Some?
    ensures
      var j := NextInput(ms, |inputs|).value;
      && j < |inputs| && pops[j] <= |inputs[j]|
      && LocalInv(AfterPop(ms, j, |inputs|, StreamOf(inputs[j])[pops[j]]), pops[j := pops[j] + 1], emitted, inputs, out)
  {
    hide IsMerge, StreamOf;
    var k := |inputs|;
    var j := NextInput(ms, k).value;
    assert SlotInv(ms, k, j, pops[j], inputs[j]);
    var ms' := AfterPop(ms, j, k, StreamOf(inputs[j])[pops[j]]);
    var pops' := pops[j := pops[j] + 1];
    forall i | 0 <= i < k
      ensures SlotInv(ms', k, i, pops'[i], inputs[i])
      ensures Remaining(ms', i, pops'[i], inputs[i]) == Remaining(ms, i, pops[i], inputs[i])
    {
      assert SlotInv(ms, k, i, pops[i], inputs[i]);
      if i == j {
        PopSlot(ms, k, j, pops[j], inputs[j]);
      }
    }
    hide SlotInv, Remaining;
    assert AllRemaining(ms', pops', inputs) == AllRemaining(ms, pops, inputs);
  }

  lemma PopSlot(ms: MergerState, k: nat, j: nat, p: nat, input: seq<Event>)
    requires NextInput(ms, k) == Some(j) && SlotInv(ms, k, j, p, input) && ms.primed <= k && j !in ms.heap
    requires ms.want == Some(j) ==> j < ms.primed
    ensures p <= |input|
    ensures
      var ms' := AfterPop(ms, j, k, StreamOf(input)[p]);
      SlotInv(ms', k, j, p + 1, input) && Remaining(ms', j, p + 1, input) == Remaining(ms, j, p, input)
  {
  }

  /** The heap's top is the next event of the merge. */
  lemma EmitLocal(ms: MergerState, pops: seq<nat>, emitted: nat, inputs: Inputs, out: seq<Event>, j: nat)
    requires LocalInv(ms, pops, emitted, inputs, out) && GoodInputs(inputs) && CanEmit(ms, |inputs|, j)
    ensures emitted < |out| && ms.heap[j] == out[emitted]
    ensures LocalInv(AfterEmit(ms, j), pops, emitted + 1, inputs, out)
  {
    hide IsMerge, GoodInputs, FirstHead;
    var k := |inputs|;
    var rest := AllRemaining(ms, pops, inputs);
    HeadsInHeap(ms, pops, inputs, emitted, out);
    RemainingGood(ms, pops, inputs);
    TopIsFirstHead(ms, rest, j);
    MergeHead(out[emitted..], rest, j);
    var ms' := AfterEmit(ms, j);
    forall i | 0 <= i < k
      ensures SlotInv(ms', k, i, pops[i], inputs[i])
      ensures Remaining(ms', i, pops[i], inputs[i]) == if i == j then rest[j][1..] else rest[i]
    {
      assert SlotInv(ms, k, i, pops[i], inputs[i]);
    }
    hide SlotInv, Remaining;
    assert AllRemaining(ms', pops, inputs) == rest[j := rest[j][1..]];
    assert out[emitted..][1..] == out[emitted + 1..];
  }

  /** When nothing is awaited, the heap holds the head of every input that has anything left. */
  lemma HeadsInHeap(ms: MergerState, pops: seq<nat>, inputs: Inputs, emitted: nat, out: seq<Event>)
    requires LocalInv(ms, pops, emitted, inputs, out) && NextInput(ms, |inputs|) == None
    ensures forall i :: 0 <= i < |inputs| ==>
      if i in ms.heap then AllRemaining(ms, pops, inputs)[i] != [] && AllRemaining(ms, pops, inputs)[i][0] == ms.heap[i]
      else AllRemaining(ms, pops, inputs)[i] == []
  {
    forall i | 0 <= i < |inputs|
      ensures
        var r := Remaining(ms, i, pops[i], inputs[i]);
        if i in ms.heap then r != [] && r[0] == ms.heap[i] else r == []
    {
      assert SlotInv(ms, |inputs|, i, pops[i], inputs[i]);
    }
  }

  lemma TopIsFirstHead(ms: MergerState, rest: Inputs, j: nat)
    requires GoodInputs(rest) && CanEmit(ms, |rest|, j) && j < |rest|
    requires forall i :: 0 <= i < |rest| ==>
      if i in ms.heap then rest[i] != [] && rest[i][0] == ms.heap[i] else rest[i] == []
    ensures FirstHead(rest, j)
  {
    forall i | 0 <= i < |rest| && i != j && rest[i] != []
      ensures ComesBefore(rest[j][0], rest[i][0])
    {
      assert rest[j][0] in rest[j] && rest[i][0] in rest[i];
      assert i in ms.heap && !ComesBefore(ms.heap[i], ms.heap[j]);
    }
  }

  /** With every input read to the end, the whole merge has been emitted. */
  lemma CloseLocal(ms: MergerState, pops: seq<nat>, emitted: nat, inputs: Inputs, out: seq<Event>)
    requires LocalInv(ms, pops, emitted, inputs, out) && CanClose(ms, |inputs|)
    ensures emitted == |out| && LocalInv(ms.(done := true), pops, emitted + 1, inputs, out)
  {
    HeadsInHeap(ms, pops, inputs, emitted, out);
    NothingLeft(out[emitted..], AllRemaining(ms, pops, inputs));
    forall i | 0 <= i < |inputs|
      ensures SlotInv(ms.(done := true), |inputs|, i, pops[i], inputs[i])
    {
      assert SlotInv(ms, |inputs|, i, pops[i], inputs[i]);
    }
  }

  lemma NewLocal(inputs: Inputs, pops: seq<nat>, out: seq<Event>)
    requires IsMerge(out, inputs) && |pops| == |inputs| && forall j :: 0 <= j < |pops| ==> pops[j] == 0
    ensures LocalInv(NEW_MERGER, pops, 0, inputs, out)
  {
    forall j | 0 <= j < |inputs|
      ensures Remaining(NEW_MERGER, j, pops[j], inputs[j]) == inputs[j]
    {
    }
    assert AllRemaining(NEW_MERGER, pops, inputs) == inputs;
    assert out[0..] == out;
  }

  lemma IdleMergerMoves(ms: MergerState, pops: seq<nat>, emitted: nat, inputs: Inputs, out: seq<Event>)
    returns (j: nat)
    requires LocalInv(ms, pops, emitted, inputs, out) && GoodInputs(inputs)
    requires NextInput(ms, |inputs|) == None && emitted != |out| + 1
    ensures if ms.heap == map[] then CanClose(ms, |inputs|) else CanEmit(ms, |inputs|, j)
  {
    j := 0;
    if ms.heap != map[] {
      var rest := AllRemaining(ms, pops, inputs);
      HeadsInHeap(ms, pops, inputs, emitted, out);
      RemainingGood(ms, pops, inputs);
      SomeSlot(ms.heap);
      var i :| i in ms.heap;
      assert rest[i] != [];
      j := FirstHeadExists(rest);
      FirstHeadIsTop(ms, rest, j);
    }
  }

  lemma SomeSlot(heap: map<nat, Event>)
    ensures heap == map[] || exists i :: i in heap
  {
    if forall i :: i !in heap {
      assert heap == map[];
    }
  }

  lemma FirstHeadIsTop(ms: MergerState, rest: Inputs, j: nat)
    requires NextInput(ms, |rest|) == None && FirstHead(rest, j) && forall i :: i in ms.heap ==> i < |rest|
    requires forall i :: 0 <= i < |rest| ==>
      if i in ms.heap then rest[i] != [] && rest[i][0] == ms.heap[i] else rest[i] == []
    ensures CanEmit(ms, |rest|, j)
  {
  }
}
