/** Producers, mergers and dispatcher running concurrently over batched queues. A step is one queue
    operation of one thread, any thread may move whenever its operation can complete, and a schedule is
    any sequence of steps. Every schedule produces a prefix of the flat merge. */
module MergeNetworks {
  import opened Domain
  import opened Channels
  import opened Merging
  import opened MergeQueues
  import opened MergeTrees
  import opened MergerStates

  // ---- the whole network ----

  datatype Plan = Plan(files: Inputs, mergers: seq<Merger>, final: nat)

  type EventQueue = Channel<QueueItem>

  datatype Net = Net(queues: seq<EventQueue>, states: seq<MergerState>)

  datatype Step = Produce(f: nat) | PopInput(m: nat) | Emit(m: nat, j: nat) | CloseMerger(m: nat) | Consume

  ghost predicate Sized(plan: Plan, net: Net) {
    && |net.queues| == |plan.files| + |plan.mergers| && |net.states| == |plan.mergers|
    && plan.final < |net.queues|
    && forall m, j :: 0 <= m < |plan.mergers| && 0 <= j < |plan.mergers[m].inputs| ==>
         plan.mergers[m].inputs[j] < |net.queues|
  }

  /** The queue merger m is about to pop. */
  ghost function Awaited(plan: Plan, net: Net, m: nat): Option<nat>
    requires Sized(plan, net) && m < |plan.mergers|
  {
    var inputs := plan.mergers[m].inputs;
    var next := NextInput(net.states[m], |inputs|);
    if next.Some? && next.value < |inputs| then Some(inputs[next.value]) else None
  }

  ghost predicate Enabled(plan: Plan, net: Net, step: Step)
    requires Sized(plan, net)
  {
    match step
    case Produce(f) => f < |plan.files| && |net.queues[f].pushed| <= |plan.files[f]|
    case PopInput(m) =>
      && m < |plan.mergers|
      && Awaited(plan, net, m).Some?
      && var q := net.queues[Awaited(plan, net, m).value]; q.Valid() && q.CanPop()
    case Emit(m, j) => m < |plan.mergers| && CanEmit(net.states[m], |plan.mergers[m].inputs|, j)
    case CloseMerger(m) => m < |plan.mergers| && CanClose(net.states[m], |plan.mergers[m].inputs|)
    case Consume => net.queues[plan.final].CanPop()
  }

  /** The end marker is pushed and flushed at once. */
  function PushEnd(q: EventQueue): EventQueue {
    q.Push(End).Flush()
  }

  ghost function Next(plan: Plan, net: Net, step: Step): (r: Net)
    requires Sized(plan, net) && Enabled(plan, net, step)
    ensures Sized(plan, r)
  {
    match step
    case Produce(f) =>
      var q := net.queues[f];
      var k := |q.pushed|;
      net.(queues := net.queues[f := if k < |plan.files[f]| then q.Push(Data(plan.files[f][k])) else PushEnd(q)])
    case PopInput(m) =>
      var id, k := Awaited(plan, net, m).value, |plan.mergers[m].inputs|;
      var q, ms := net.queues[id], net.states[m];
      Net(net.queues[id := q.Pop()], net.states[m := AfterPop(ms, NextInput(ms, k).value, k, q.Front())])
    case Emit(m, j) =>
      var out, ms := |plan.files| + m, net.states[m];
      Net(net.queues[out := net.queues[out].Push(Data(ms.heap[j]))], net.states[m := AfterEmit(ms, j)])
    case CloseMerger(m) =>
      var out := |plan.files| + m;
      Net(net.queues[out := PushEnd(net.queues[out])], net.states[m := net.states[m].(done := true)])
    case Consume => net.(queues := net.queues[plan.final := net.queues[plan.final].Pop()])
  }

  /** A blocked thread waits: a step that is not enabled changes nothing. */
  ghost function Try(plan: Plan, net: Net, step: Step): (r: Net)
    requires Sized(plan, net)
    ensures Sized(plan, r)
  {
    if Enabled(plan, net, step) then Next(plan, net, step) else net
  }

  ghost function Start(plan: Plan, batch: nat): Net {
    Net(seq(|plan.files| + |plan.mergers|, q => Empty(batch)), seq(|plan.mergers|, m => NEW_MERGER))
  }

  // ---- the plan and what its queues carry ----

  ghost predicate MergerFits(plan: Plan, contents: seq<seq<Event>>, m: nat)
    requires m < |plan.mergers| && |contents| == |plan.files| + |plan.mergers|
  {
    var inputs := plan.mergers[m].inputs;
    && (forall j :: 0 <= j < |inputs| ==> inputs[j] < |plan.files| + m)
    && GoodInputs(Select(contents, inputs))
    && IsMerge(contents[|plan.files| + m], Select(contents, inputs))
  }

  ghost predicate PlanOk(plan: Plan, contents: seq<seq<Event>>) {
    && |contents| == |plan.files| + |plan.mergers|
    && (forall f :: 0 <= f < |plan.files| ==> contents[f] == plan.files[f])
    && (forall m :: 0 <= m < |plan.mergers| ==> MergerFits(plan, contents, m))
    && SingleConsumer(plan.mergers)
    && plan.final < |contents| && Unread(plan.mergers, plan.final)
  }

  /** A built tree is such a plan, and its last queue carries the flat merge. */
  lemma TreeFits(files: Inputs, mergers: seq<Merger>, ranges: seq<Range>, final: nat)
    requires GoodFiles(files) && TreeBuilt(|files|, mergers, ranges, final)
    ensures GoodInputs(files)
    ensures
      var c := Contents(files, ranges);
      PlanOk(Plan(files, mergers, final), c) && c[final] == Merged(files)
  {
    hide GoodInputs, IsMerge, Contents, Merged, Carries, GoodFiles, Chain, SingleConsumer, Unread;
    var plan, c := Plan(files, mergers, final), Contents(files, ranges);
    TreeIsFlat(files, |files|, mergers, ranges, final);
    forall m | 0 <= m < |mergers|
      ensures MergerFits(plan, c, m)
    {
      assert MergerOk(|files|, mergers, ranges, m);
      MergerMerges(files, |files|, mergers, ranges, m);
    }
  }

  // ---- the invariant ----

  /** A queue has been pushed a prefix of its stream; once complete, all of it is visible. */
  ghost predicate QueueOk(q: EventQueue, content: seq<Event>) {
    && q.Valid()
    && q.pushed <= StreamOf(content)
    && (|q.pushed| == |content| + 1 ==> q.visible == |q.pushed|)
  }

  ghost function Pops(queues: seq<EventQueue>, qs: seq<nat>): (p: seq<nat>)
    requires forall j :: 0 <= j < |qs| ==> qs[j] < |queues|
    ensures |p| == |qs| && forall j :: 0 <= j < |p| ==> p[j] == queues[qs[j]].popped
  {
    seq(|qs|, j requires 0 <= j < |qs| => queues[qs[j]].popped)
  }

  ghost predicate MergerInv(plan: Plan, contents: seq<seq<Event>>, net: Net, m: nat)
    requires Sized(plan, net) && |contents| == |net.queues| && m < |plan.mergers|
  {
    var inputs, out := plan.mergers[m].inputs, |plan.files| + m;
    LocalInv(net.states[m], Pops(net.queues, inputs), |net.queues[out].pushed|, Select(contents, inputs), contents[out])
  }

  ghost predicate Inv(plan: Plan, contents: seq<seq<Event>>, net: Net) {
    && Sized(plan, net) && |contents| == |net.queues|
    && (forall q :: 0 <= q < |contents| ==> QueueOk(net.queues[q], contents[q]))
    && (forall m :: 0 <= m < |plan.mergers| ==> MergerInv(plan, contents, net, m))
  }

  lemma PushOk(q: EventQueue, content: seq<Event>, k: nat)
    requires QueueOk(q, content) && k == |q.pushed| <= |content|
    ensures k < |content| ==> QueueOk(q.Push(Data(content[k])), content)
    ensures k == |content| ==> QueueOk(PushEnd(q), content)
  {
    var s := StreamOf(content);
    assert q.pushed + [s[k]] <= s;
  }

  lemma PopOk(q: EventQueue, content: seq<Event>)
    requires QueueOk(q, content) && q.CanPop()
    ensures QueueOk(q.Pop(), content) && q.Front() == StreamOf(content)[q.popped]
  {
  }

  /** A merger that neither pops nor pushes the changed queues sees no difference. */
  lemma OtherMerger(plan: Plan, contents: seq<seq<Event>>, net: Net, net': Net, m: nat)
    requires Sized(plan, net) && Sized(plan, net') && |contents| == |net.queues| && m < |plan.mergers|
    requires MergerInv(plan, contents, net, m) && net'.states[m] == net.states[m]
    requires |net'.queues[|plan.files| + m].pushed| == |net.queues[|plan.files| + m].pushed|
    requires forall j :: 0 <= j < |plan.mergers[m].inputs| ==>
      net'.queues[plan.mergers[m].inputs[j]].popped == net.queues[plan.mergers[m].inputs[j]].popped
    ensures MergerInv(plan, contents, net', m)
  {
    assert Pops(net'.queues, plan.mergers[m].inputs) == Pops(net.queues, plan.mergers[m].inputs);
  }

  // ---- every step keeps the invariant ----

  lemma ProduceKeeps(plan: Plan, contents: seq<seq<Event>>, net: Net, f: nat)
    requires PlanOk(plan, contents) && Inv(plan, contents, net) && Enabled(plan, net, Produce(f))
    ensures Inv(plan, contents, Next(plan, net, Produce(f)))
  {
    hide MergerInv, QueueOk;
    var net' := Next(plan, net, Produce(f));
    assert QueueOk(net.queues[f], contents[f]);
    PushOk(net.queues[f], contents[f], |net.queues[f].pushed|);
    forall m | 0 <= m < |plan.mergers|
      ensures MergerInv(plan, contents, net', m)
    {
      OtherMerger(plan, contents, net, net', m);
    }
  }

  lemma ConsumeKeeps(plan: Plan, contents: seq<seq<Event>>, net: Net)
    requires PlanOk(plan, contents) && Inv(plan, contents, net) && Enabled(plan, net, Consume)
    ensures Inv(plan, contents, Next(plan, net, Consume))
  {
    hide MergerInv, QueueOk;
    var net' := Next(plan, net, Consume);
    PopOk(net.queues[plan.final], contents[plan.final]);
    forall m | 0 <= m < |plan.mergers|
      ensures MergerInv(plan, contents, net', m)
    {
      assert plan.final !in plan.mergers[m].inputs;
      OtherMerger(plan, contents, net, net', m);
    }
  }

  /** The net with merger m in another state and one queue replaced. */
  ghost function Moved(net: Net, m: nat, changed: nat, q: EventQueue, ms: MergerState): Net
    requires m < |net.states| && changed < |net.queues|
  {
    Net(net.queues[changed := q], net.states[m := ms])
  }

  /** Only merger m and the queue `changed` moved; everyone else is as before. */
  lemma OneMergerMoved(
    plan: Plan, contents: seq<seq<Event>>, net: Net, m: nat, changed: nat, q: EventQueue, ms: MergerState)
    requires PlanOk(plan, contents) && Inv(plan, contents, net) && m < |plan.mergers| && changed < |net.queues|
    requires QueueOk(q, contents[changed]) && MergerInv(plan, contents, Moved(net, m, changed, q, ms), m)
    requires
      || (changed == |plan.files| + m && q.popped == net.queues[changed].popped)
      || (changed in plan.mergers[m].inputs && |q.pushed| == |net.queues[changed].pushed|)
    ensures Inv(plan, contents, Moved(net, m, changed, q, ms))
  {
    hide MergerInv, QueueOk, MergerFits;
    var net' := Moved(net, m, changed, q, ms);
    forall other | 0 <= other < |plan.mergers| && other != m
      ensures MergerInv(plan, contents, net', other)
    {
      if changed in plan.mergers[m].inputs {
        OnlyConsumer(plan.mergers, m, other, changed);
      }
      hide SingleConsumer;
      OtherMerger(plan, contents, net, net', other);
    }
  }

  lemma OnlyConsumer(mergers: seq<Merger>, m: nat, other: nat, q: nat)
    requires SingleConsumer(mergers) && m < |mergers| && other < |mergers| && m != other && q in mergers[m].inputs
    ensures q !in mergers[other].inputs
  {
  }

  lemma PopKeeps(plan: Plan, contents: seq<seq<Event>>, net: Net, m: nat)
    requires PlanOk(plan, contents) && Inv(plan, contents, net) && Enabled(plan, net, PopInput(m))
    ensures Inv(plan, contents, Next(plan, net, PopInput(m)))
  {
    hide MergerInv, QueueOk, MergerFits, SingleConsumer;
    var id := Awaited(plan, net, m).value;
    assert QueueOk(net.queues[id], contents[id]);
    PopOk(net.queues[id], contents[id]);
    PopperKeeps(plan, contents, net, m);
    var net' := Next(plan, net, PopInput(m));
    assert net' == Moved(net, m, id, net.queues[id].Pop(), net'.states[m]);
    OneMergerMoved(plan, contents, net, m, id, net.queues[id].Pop(), net'.states[m]);
  }

  lemma PopperKeeps(plan: Plan, contents: seq<seq<Event>>, net: Net, m: nat)
    requires PlanOk(plan, contents) && Inv(plan, contents, net) && Enabled(plan, net, PopInput(m))
    ensures MergerInv(plan, contents, Next(plan, net, PopInput(m)), m)
  {
    hide LocalInv, QueueOk, GoodInputs, IsMerge, StreamOf, SingleConsumer, Unread, Pops, Select, AfterPop, NextInput;
    assert MergerInv(plan, contents, net, m) && MergerFits(plan, contents, m);
    var qs, ms := plan.mergers[m].inputs, net.states[m];
    var j := NextInput(ms, |qs|).value;
    var id, out := qs[j], |plan.files| + m;
    assert QueueOk(net.queues[id], contents[id]);
    PopOk(net.queues[id], contents[id]);
    PopLocal(ms, Pops(net.queues, qs), |net.queues[out].pushed|, Select(contents, qs), contents[out]);
    PopsAfter(net.queues, plan.mergers, m, j);
    var net' := Next(plan, net, PopInput(m));
    assert net'.queues == net.queues[id := net.queues[id].Pop()];
    assert net'.states[m] == AfterPop(ms, j, |qs|, net.queues[id].Front());
    assert net'.queues[out] == net.queues[out];
    hide PlanOk, Inv, Next;
  }

  lemma PopsAfter(queues: seq<EventQueue>, mergers: seq<Merger>, m: nat, j: nat)
    requires SingleConsumer(mergers) && m < |mergers| && j < |mergers[m].inputs|
    requires forall i :: 0 <= i < |mergers[m].inputs| ==> mergers[m].inputs[i] < |queues|
    requires queues[mergers[m].inputs[j]].CanPop()
    ensures
      var qs := mergers[m].inputs;
      Pops(queues[qs[j] := queues[qs[j]].Pop()], qs) == Pops(queues, qs)[j := Pops(queues, qs)[j] + 1]
  {
  }

  /** What a merger's steps rely on: its own invariant, and its own queues. */
  ghost predicate MergerFacts(plan: Plan, contents: seq<seq<Event>>, net: Net, m: nat) {
    && m < |plan.mergers| && m < |net.states| && |plan.files| + m < |net.queues| == |contents|
    && var qs, out := plan.mergers[m].inputs, |plan.files| + m;
    && (forall j :: 0 <= j < |qs| ==> qs[j] < out)
    && GoodInputs(Select(contents, qs)) && QueueOk(net.queues[out], contents[out])
    && LocalInv(net.states[m], Pops(net.queues, qs), |net.queues[out].pushed|, Select(contents, qs), contents[out])
  }

  lemma MergerHasFacts(plan: Plan, contents: seq<seq<Event>>, net: Net, m: nat)
    requires PlanOk(plan, contents) && Inv(plan, contents, net) && m < |plan.mergers|
    ensures Sized(plan, net) && |contents| == |net.queues| && MergerFacts(plan, contents, net, m)
  {
    hide LocalInv, QueueOk, GoodInputs, IsMerge, SingleConsumer, Unread;
    assert MergerInv(plan, contents, net, m) && MergerFits(plan, contents, m);
  }

  /** Only the merger's state and its output queue change, as the local steps say. */
  lemma OutputMoved(plan: Plan, contents: seq<seq<Event>>, net: Net, m: nat, q: EventQueue, ms: MergerState)
    requires PlanOk(plan, contents) && Inv(plan, contents, net) && m < |plan.mergers|
    requires MovedOn(plan, contents, net, m, q, ms)
    ensures Inv(plan, contents, Net(net.queues[|plan.files| + m := q], net.states[m := ms]))
  {
    var net' := Net(net.queues[|plan.files| + m := q], net.states[m := ms]);
    MergerHasFacts(plan, contents, net, m);
    assert Sized(plan, net') by {
      hide PlanOk, MergerFacts;
    }
    hide PlanOk, Inv, LocalInv, QueueOk, Pops, Select, Sized, GoodInputs;
    OutputInv(plan, contents, net, m, q, ms);
    assert net' == Moved(net, m, |plan.files| + m, q, ms);
    hide MergerInv;
    OneMergerMoved(plan, contents, net, m, |plan.files| + m, q, ms);
  }

  /** What the merger's new state and output queue must satisfy. */
  ghost predicate MovedOn(
    plan: Plan, contents: seq<seq<Event>>, net: Net, m: nat, q: EventQueue, ms: MergerState)
    requires Sized(plan, net) && |contents| == |net.queues| && m < |plan.mergers|
  {
    var qs, out := plan.mergers[m].inputs, |plan.files| + m;
    && QueueOk(q, contents[out]) && q.popped == net.queues[out].popped
    && LocalInv(ms, Pops(net.queues, qs), |q.pushed|, Select(contents, qs), contents[out])
  }

  lemma OutputInv(plan: Plan, contents: seq<seq<Event>>, net: Net, m: nat, q: EventQueue, ms: MergerState)
    requires Sized(plan, net) && MergerFacts(plan, contents, net, m) && MovedOn(plan, contents, net, m, q, ms)
    ensures
      var net' := Net(net.queues[|plan.files| + m := q], net.states[m := ms]);
      Sized(plan, net') && MergerInv(plan, contents, net', m)
  {
    hide LocalInv, QueueOk, GoodInputs, Select;
    var qs, out := plan.mergers[m].inputs, |plan.files| + m;
    assert Pops(net.queues[out := q], qs) == Pops(net.queues, qs);
  }

  lemma EmitLocally(ms: MergerState, pops: seq<nat>, inputs: Inputs, q: EventQueue, out: seq<Event>, j: nat)
    requires LocalInv(ms, pops, |q.pushed|, inputs, out) && GoodInputs(inputs) && QueueOk(q, out)
    requires CanEmit(ms, |inputs|, j)
    ensures
      j in ms.heap &&
      var q' := q.Push(Data(ms.heap[j]));
      QueueOk(q', out) && q'.popped == q.popped && LocalInv(AfterEmit(ms, j), pops, |q'.pushed|, inputs, out)
  {
    assert j in ms.heap;
    hide LocalInv, QueueOk, GoodInputs, CanEmit, AfterEmit;
    EmitLocal(ms, pops, |q.pushed|, inputs, out, j);
    PushOk(q, out, |q.pushed|);
  }

  lemma EmitKeeps(plan: Plan, contents: seq<seq<Event>>, net: Net, m: nat, j: nat)
    requires PlanOk(plan, contents) && Inv(plan, contents, net) && Enabled(plan, net, Emit(m, j))
    ensures Inv(plan, contents, Next(plan, net, Emit(m, j)))
  {
    hide PlanOk, Inv, LocalInv, QueueOk, CanEmit, AfterEmit, GoodInputs, Awaited, Sized;
    MergerHasFacts(plan, contents, net, m);
    var qs, out, ms := plan.mergers[m].inputs, |plan.files| + m, net.states[m];
    EmitLocally(ms, Pops(net.queues, qs), Select(contents, qs), net.queues[out], contents[out], j);
    hide MergerFacts, Pops, Select;
    OutputMoved(plan, contents, net, m, net.queues[out].Push(Data(ms.heap[j])), AfterEmit(ms, j));
  }

  lemma CloseLocally(ms: MergerState, pops: seq<nat>, inputs: Inputs, q: EventQueue, out: seq<Event>)
    requires LocalInv(ms, pops, |q.pushed|, inputs, out) && QueueOk(q, out) && CanClose(ms, |inputs|)
    ensures
      var q' := PushEnd(q);
      QueueOk(q', out) && q'.popped == q.popped && LocalInv(ms.(done := true), pops, |q'.pushed|, inputs, out)
  {
    hide LocalInv, QueueOk, CanClose;
    CloseLocal(ms, pops, |q.pushed|, inputs, out);
    PushOk(q, out, |q.pushed|);
  }

  lemma CloseKeeps(plan: Plan, contents: seq<seq<Event>>, net: Net, m: nat)
    requires PlanOk(plan, contents) && Inv(plan, contents, net) && Enabled(plan, net, CloseMerger(m))
    ensures Inv(plan, contents, Next(plan, net, CloseMerger(m)))
  {
    hide PlanOk, Inv, LocalInv, QueueOk, CanClose, GoodInputs, PushEnd, Awaited, Sized;
    MergerHasFacts(plan, contents, net, m);
    var qs, out, ms := plan.mergers[m].inputs, |plan.files| + m, net.states[m];
    CloseLocally(ms, Pops(net.queues, qs), Select(contents, qs), net.queues[out], contents[out]);
    hide MergerFacts, Pops, Select;
    OutputMoved(plan, contents, net, m, PushEnd(net.queues[out]), ms.(done := true));
  }

  lemma StepKeeps(plan: Plan, contents: seq<seq<Event>>, net: Net, step: Step)
    requires PlanOk(plan, contents) && Inv(plan, contents, net)
    ensures Inv(plan, contents, Try(plan, net, step))
  {
    if Enabled(plan, net, step) {
      hide Inv, PlanOk, Enabled, Next;
      match step
      case Produce(f) => ProduceKeeps(plan, contents, net, f);
      case PopInput(m) => PopKeeps(plan, contents, net, m);
      case Emit(m, j) => EmitKeeps(plan, contents, net, m, j);
      case CloseMerger(m) => CloseKeeps(plan, contents, net, m);
      case Consume => ConsumeKeeps(plan, contents, net);
    }
  }

  lemma StartSized(plan: Plan, contents: seq<seq<Event>>, batch: nat)
    requires PlanOk(plan, contents)
    ensures Sized(plan, Start(plan, batch)) && |contents| == |Start(plan, batch).queues|
  {
    forall m, j | 0 <= m < |plan.mergers| && 0 <= j < |plan.mergers[m].inputs|
      ensures plan.mergers[m].inputs[j] < |plan.files| + |plan.mergers|
    {
      assert MergerFits(plan, contents, m);
    }
  }

  lemma NewMergerInv(plan: Plan, contents: seq<seq<Event>>, batch: nat, m: nat)
    requires m < |plan.mergers| && |contents| == |plan.files| + |plan.mergers| && MergerFits(plan, contents, m)
    requires Sized(plan, Start(plan, batch))
    ensures MergerInv(plan, contents, Start(plan, batch), m)
  {
    hide LocalInv, GoodInputs, IsMerge, Sized, Start;
    var net, qs, out := Start(plan, batch), plan.mergers[m].inputs, |plan.files| + m;
    StartEmpty(plan, batch);
    NewLocal(Select(contents, qs), Pops(net.queues, qs), contents[out]);
  }

  lemma StartEmpty(plan: Plan, batch: nat)
    ensures
      var net := Start(plan, batch);
      && |net.queues| == |plan.files| + |plan.mergers| && |net.states| == |plan.mergers|
      && (forall q :: 0 <= q < |net.queues| ==> net.queues[q] == Empty(batch))
      && (forall m :: 0 <= m < |net.states| ==> net.states[m] == NEW_MERGER)
  {
  }

  lemma StartKeeps(plan: Plan, contents: seq<seq<Event>>, batch: nat)
    requires PlanOk(plan, contents) && batch > 0
    ensures Inv(plan, contents, Start(plan, batch))
  {
    hide MergerInv, MergerFits, SingleConsumer, Unread;
    var net := Start(plan, batch);
    StartSized(plan, contents, batch);
    forall m | 0 <= m < |plan.mergers|
      ensures MergerInv(plan, contents, net, m)
    {
      NewMergerInv(plan, contents, batch, m);
    }
    forall q | 0 <= q < |contents|
      ensures QueueOk(net.queues[q], contents[q])
    {
      assert net.queues[q] == Empty(batch);
    }
  }

  // ---- runs ----

  ghost function Run(plan: Plan, batch: nat, steps: seq<Step>): (r: Net)
    requires Sized(plan, Start(plan, batch))
    ensures Sized(plan, r)
  {
    if steps == [] then Start(plan, batch)
    else Try(plan, Run(plan, batch, steps[..|steps| - 1]), steps[|steps| - 1])
  }

  lemma {:induction false} RunKeeps(plan: Plan, contents: seq<seq<Event>>, batch: nat, steps: seq<Step>)
    requires PlanOk(plan, contents) && batch > 0
    ensures Sized(plan, Start(plan, batch)) && Inv(plan, contents, Run(plan, batch, steps))
  {
    StartKeeps(plan, contents, batch);
    if steps != [] {
      hide Inv, PlanOk, Try;
      RunKeeps(plan, contents, batch, steps[..|steps| - 1]);
      StepKeeps(plan, contents, Run(plan, batch, steps[..|steps| - 1]), steps[|steps| - 1]);
    }
  }

  /** What the dispatcher has taken from the last queue. */
  ghost function Delivered(plan: Plan, net: Net): seq<QueueItem>
    requires Sized(plan, net) && net.queues[plan.final].Valid()
  {
    net.queues[plan.final].pushed[..net.queues[plan.final].popped]
  }

  /** Under every schedule the dispatcher has received a prefix of the flat merge and its end marker. */
  lemma EveryScheduleDeliversPrefix(
    files: Inputs, mergers: seq<Merger>, ranges: seq<Range>, final: nat, batch: nat, steps: seq<Step>)
    requires GoodFiles(files) && TreeBuilt(|files|, mergers, ranges, final) && batch > 0
    ensures
      var plan := Plan(files, mergers, final);
      && GoodInputs(files) && Sized(plan, Start(plan, batch))
      && var net := Run(plan, batch, steps);
      && net.queues[final].Valid()
      && Delivered(plan, net) <= StreamOf(Merged(files))
  {
    var plan, c := Plan(files, mergers, final), Contents(files, ranges);
    TreeFits(files, mergers, ranges, final);
    RunKeeps(plan, c, batch, steps);
    var net := Run(plan, batch, steps);
    assert QueueOk(net.queues[final], c[final]);
    hide *;
    PrefixOfPrefix(net.queues[final].pushed, net.queues[final].popped, StreamOf(c[final]));
  }

  /** What the dispatcher has received under any schedule is in source order, and nothing follows the end marker. */
  lemma EveryScheduleDeliversInOrder(
    files: Inputs, mergers: seq<Merger>, ranges: seq<Range>, final: nat, batch: nat, steps: seq<Step>)
    requires GoodFiles(files) && TreeBuilt(|files|, mergers, ranges, final) && batch > 0
    ensures
      var plan := Plan(files, mergers, final);
      && Sized(plan, Start(plan, batch)) && Run(plan, batch, steps).queues[final].Valid()
      && var items := Delivered(plan, Run(plan, batch, steps));
         forall i, j :: 0 <= i < j < |items| ==>
           items[i].Data? && (items[j].Data? ==> SourceBefore(items[i].event, items[j].event))
  {
    hide Run, Delivered, Start, Sized, GoodFiles, TreeBuilt;
    EveryScheduleDeliversPrefix(files, mergers, ranges, final, batch, steps);
    MergedInSourceOrder(files);
  }

  lemma PrefixOfPrefix<T>(a: seq<T>, k: nat, b: seq<T>)
    requires a <= b && k <= |a|
    ensures a[..k] <= b
  {
  }
}
