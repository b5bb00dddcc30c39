/** No run of the network stops early and none goes on for ever: a run that can go no further has delivered
    the whole merge, flat or tree. */
module MergeProgress {
  import opened Domain
  import opened Channels
  import opened Merging
  import opened MergeQueues
  import opened MergeTrees
  import opened MergerStates
  import opened MergeNetworks

  // ---- no run gets stuck early ----

  /** Every thread is finished or blocked. */
  ghost predicate Stuck(plan: Plan, net: Net)
    requires Sized(plan, net)
  {
    forall step :: !Enabled(plan, net, step)
  }

  ghost predicate Complete(q: EventQueue, content: seq<Event>) {
    |q.pushed| == |content| + 1
  }

  lemma InputsEarlier(plan: Plan, contents: seq<seq<Event>>, net: Net, m: nat)
    requires PlanOk(plan, contents) && Inv(plan, contents, net) && m < |plan.mergers|
    ensures |net.queues| == |contents| == |plan.files| + |plan.mergers|
    ensures forall j :: 0 <= j < |plan.mergers[m].inputs| ==> plan.mergers[m].inputs[j] < |plan.files| + m
  {
    assert MergerFits(plan, contents, m);
    hide GoodInputs, IsMerge, MergerInv, SingleConsumer;
  }

  lemma ProducerMoves(plan: Plan, contents: seq<seq<Event>>, net: Net, f: nat)
    requires PlanOk(plan, contents) && Inv(plan, contents, net) && f < |plan.files|
    requires !Complete(net.queues[f], contents[f])
    ensures Enabled(plan, net, Produce(f))
  {
    hide MergerInv, MergerFits, SingleConsumer, StreamOf;
    assert QueueOk(net.queues[f], contents[f]);
  }

  /** While some queue misses part of its stream, some thread can move: the producer of a file, or else
      the merger of the first incomplete queue, since a merger only reads earlier queues. */
  lemma {:induction false} SomeoneMoves(plan: Plan, contents: seq<seq<Event>>, net: Net, q: nat) returns (step: Step)
    requires PlanOk(plan, contents) && Inv(plan, contents, net) && q < |net.queues| == |contents|
    requires |contents| == |plan.files| + |plan.mergers|
    requires !Complete(net.queues[q], contents[q])
    ensures Sized(plan, net) && Enabled(plan, net, step)
    decreases q
  {
    assert Sized(plan, net);
    hide *;
    if q < |plan.files| {
      ProducerMoves(plan, contents, net, q);
      step := Produce(q);
    } else {
      var m := q - |plan.files|;
      var qs := plan.mergers[m].inputs;
      InputsEarlier(plan, contents, net, m);
      if j :| 0 <= j < |qs| && !Complete(net.queues[qs[j]], contents[qs[j]]) {
        step := SomeoneMoves(plan, contents, net, qs[j]);
      } else {
        step := MergerMoves(plan, contents, net, m);
      }
    }
  }

  /** A merger whose inputs are complete can always move until its output is complete. */
  lemma MergerMoves(plan: Plan, contents: seq<seq<Event>>, net: Net, m: nat) returns (step: Step)
    requires PlanOk(plan, contents) && Inv(plan, contents, net) && m < |plan.mergers|
    requires
      var qs := plan.mergers[m].inputs;
      forall j :: 0 <= j < |qs| ==> Complete(net.queues[qs[j]], contents[qs[j]])
    requires !Complete(net.queues[|plan.files| + m], contents[|plan.files| + m])
    ensures Enabled(plan, net, step)
  {
    assert m < |net.states| && Sized(plan, net);
    hide PlanOk, Inv, Complete, NextInput, Enabled, Sized;
    if NextInput(net.states[m], |plan.mergers[m].inputs|).Some? {
      WaitingMergerPops(plan, contents, net, m);
      step := PopInput(m);
    } else {
      step := IdleMergerSteps(plan, contents, net, m);
    }
  }

  lemma IdleMergerSteps(plan: Plan, contents: seq<seq<Event>>, net: Net, m: nat) returns (step: Step)
    requires PlanOk(plan, contents) && Inv(plan, contents, net) && m < |plan.mergers|
    requires NextInput(net.states[m], |plan.mergers[m].inputs|) == None
    requires !Complete(net.queues[|plan.files| + m], contents[|plan.files| + m])
    ensures Enabled(plan, net, step)
  {
    hide PlanOk, Inv, LocalInv, GoodInputs, QueueOk, CanEmit, CanClose, NextInput, Pops, Select, Awaited, Sized;
    MergerHasFacts(plan, contents, net, m);
    var qs, ms, out := plan.mergers[m].inputs, net.states[m], |plan.files| + m;
    var j := IdleMergerMoves(ms, Pops(net.queues, qs), |net.queues[out].pushed|, Select(contents, qs), contents[out]);
    step := if ms.heap == map[] then CloseMerger(m) else Emit(m, j);
  }

  lemma WaitingMergerPops(plan: Plan, contents: seq<seq<Event>>, net: Net, m: nat)
    requires PlanOk(plan, contents) && Inv(plan, contents, net) && m < |plan.mergers|
    requires
      var qs := plan.mergers[m].inputs;
      && NextInput(net.states[m], |qs|).Some?
      && forall j :: 0 <= j < |qs| ==> Complete(net.queues[qs[j]], contents[qs[j]])
    ensures Enabled(plan, net, PopInput(m))
  {
    hide LocalInv, GoodInputs, IsMerge, SingleConsumer, QueueOk, NextInput, Unread, AfterPop, StreamOf, Pops, Select,
      Complete;
    var qs, ms, out := plan.mergers[m].inputs, net.states[m], |plan.files| + m;
    assert MergerInv(plan, contents, net, m) && MergerFits(plan, contents, m);
    PopLocal(ms, Pops(net.queues, qs), |net.queues[out].pushed|, Select(contents, qs), contents[out]);
    var j := NextInput(ms, |qs|).value;
    assert QueueOk(net.queues[qs[j]], contents[qs[j]]);
    CompleteCanPop(net.queues[qs[j]], contents[qs[j]]);
  }

  lemma CompleteCanPop(q: EventQueue, content: seq<Event>)
    requires QueueOk(q, content) && Complete(q, content) && q.popped <= |content|
    ensures q.Valid() && q.CanPop()
  {
  }

  /** A run that can go no further has delivered the whole flat merge and its end marker. */
  lemma StuckRunDeliversAll(
    files: Inputs, mergers: seq<Merger>, ranges: seq<Range>, final: nat, batch: nat, steps: seq<Step>)
    requires GoodFiles(files) && TreeBuilt(|files|, mergers, ranges, final) && batch > 0
    requires
      var plan := Plan(files, mergers, final);
      Sized(plan, Start(plan, batch)) && Stuck(plan, Run(plan, batch, steps))
    ensures
      var plan := Plan(files, mergers, final);
      var net := Run(plan, batch, steps);
      && GoodInputs(files) && net.queues[final].Valid()
      && Delivered(plan, net) == StreamOf(Merged(files))
  {
    var plan, c := Plan(files, mergers, final), Contents(files, ranges);
    hide *;
    TreeFits(files, mergers, ranges, final);
    RunKeeps(plan, c, batch, steps);
    StuckIsDelivered(plan, c, Run(plan, batch, steps));
  }

  lemma StuckIsDelivered(plan: Plan, contents: seq<seq<Event>>, net: Net)
    requires PlanOk(plan, contents) && Inv(plan, contents, net) && Stuck(plan, net)
    ensures net.queues[plan.final].Valid() && Delivered(plan, net) == StreamOf(contents[plan.final])
  {
    hide MergerInv, MergerFits, SingleConsumer, Unread;
    if !Complete(net.queues[plan.final], contents[plan.final]) {
      var step := SomeoneMoves(plan, contents, net, plan.final);
      assert false;
    }
    assert !Enabled(plan, net, Consume);
    var q := net.queues[plan.final];
    assert QueueOk(q, contents[plan.final]);
    assert q.pushed[..q.popped] == q.pushed;
  }

  // ---- every run ends ----

  /** Queue operations performed so far. */
  ghost function Work(queues: seq<EventQueue>): nat {
    if queues == [] then 0 else Work(queues[1..]) + |queues[0].pushed| + queues[0].popped
  }

  ghost function Limit(contents: seq<seq<Event>>): nat {
    if contents == [] then 0 else Limit(contents[1..]) + 2 * (|contents[0]| + 1)
  }

  lemma {:induction false} WorkGrows(queues: seq<EventQueue>, k: nat, q: EventQueue)
    requires k < |queues| && |q.pushed| + q.popped == |queues[k].pushed| + queues[k].popped + 1
    ensures Work(queues[k := q]) == Work(queues) + 1
  {
    if k == 0 {
      assert queues[k := q][1..] == queues[1..];
    } else {
      WorkGrows(queues[1..], k - 1, q);
      assert queues[k := q][1..] == queues[1..][k - 1 := q];
    }
  }

  lemma {:induction false} WorkBounded(queues: seq<EventQueue>, contents: seq<seq<Event>>)
    requires |queues| == |contents| && forall q :: 0 <= q < |queues| ==> QueueOk(queues[q], contents[q])
    ensures Work(queues) <= Limit(contents)
  {
    if queues != [] {
      assert QueueOk(queues[0], contents[0]);
      WorkBounded(queues[1..], contents[1..]);
    }
  }

  /** Every step that is taken performs one queue operation. */
  lemma StepWorks(plan: Plan, net: Net, step: Step)
    requires Sized(plan, net) && Enabled(plan, net, step)
    ensures Work(Next(plan, net, step).queues) == Work(net.queues) + 1
  {
    match step
    case Produce(f) => WorkGrows(net.queues, f, Next(plan, net, step).queues[f]);
    case PopInput(m) =>
      var id := Awaited(plan, net, m).value;
      WorkGrows(net.queues, id, net.queues[id].Pop());
    case Emit(m, j) =>
      var out := |plan.files| + m;
      WorkGrows(net.queues, out, Next(plan, net, step).queues[out]);
    case CloseMerger(m) =>
      var out := |plan.files| + m;
      WorkGrows(net.queues, out, Next(plan, net, step).queues[out]);
    case Consume => WorkGrows(net.queues, plan.final, net.queues[plan.final].Pop());
  }

  /** The number of steps of a schedule that were actually taken. */
  ghost function Taken(plan: Plan, batch: nat, steps: seq<Step>): nat
    requires Sized(plan, Start(plan, batch))
  {
    if steps == [] then 0
    else
      var front := steps[..|steps| - 1];
      Taken(plan, batch, front) + if Enabled(plan, Run(plan, batch, front), steps[|steps| - 1]) then 1 else 0
  }

  /** No schedule takes more steps than there are pushes and pops to do, so every run reaches a state in
      which nothing can move. */
  lemma {:induction false} RunsAreBounded(plan: Plan, contents: seq<seq<Event>>, batch: nat, steps: seq<Step>)
    requires PlanOk(plan, contents) && batch > 0
    ensures Sized(plan, Start(plan, batch)) && Taken(plan, batch, steps) <= Limit(contents)
  {
    RunKeeps(plan, contents, batch, steps);
    TakenIsWork(plan, batch, steps);
    WorkBounded(Run(plan, batch, steps).queues, contents);
  }

  lemma {:induction false} TakenIsWork(plan: Plan, batch: nat, steps: seq<Step>)
    requires Sized(plan, Start(plan, batch))
    ensures Taken(plan, batch, steps) == Work(Run(plan, batch, steps).queues)
  {
    if steps == [] {
      NoWorkYet(Start(plan, batch).queues, batch);
    } else {
      hide Next, Enabled;
      var front, step := steps[..|steps| - 1], steps[|steps| - 1];
      TakenIsWork(plan, batch, front);
      var net := Run(plan, batch, front);
      if Enabled(plan, net, step) {
        StepWorks(plan, net, step);
      }
    }
  }

  lemma {:induction false} NoWorkYet(queues: seq<EventQueue>, batch: nat)
    requires forall q :: 0 <= q < |queues| ==> queues[q] == Empty(batch)
    ensures Work(queues) == 0
  {
    if queues != [] {
      NoWorkYet(queues[1..], batch);
    }
  }

  // ---- the flat runner ----

  /** One merger over all files, as the flat strategy starts it. */
  ghost function FlatPlan(files: Inputs): Plan {
    Plan(files, [Merger(seq(|files|, f requires 0 <= f < |files| => f))], |files|)
  }

  lemma FlatFits(files: Inputs)
    requires GoodInputs(files)
    ensures PlanOk(FlatPlan(files), files + [Merged(files)])
  {
    hide GoodInputs, IsMerge, Select;
    var plan, c := FlatPlan(files), files + [Merged(files)];
    var ids := plan.mergers[0].inputs;
    assert Select(c, ids) == files;
    assert c[|files|] == Merged(files);
    assert MergerFits(plan, c, 0);
    OneMerger(ids, |files|);
    hide MergerFits, SingleConsumer, Unread;
  }

  lemma OneMerger(ids: seq<nat>, n: nat)
    requires |ids| == n && forall f :: 0 <= f < n ==> ids[f] == f
    ensures SingleConsumer([Merger(ids)]) && Unread([Merger(ids)], n)
  {
  }

  /** Flat or tree, whatever the schedules and batch sizes: two runs that can go no further have handed
      their dispatchers the same events in the same order. */
  lemma FlatAndTreeAgree(
    files: Inputs, mergers: seq<Merger>, ranges: seq<Range>, final: nat,
    treeBatch: nat, treeSteps: seq<Step>, flatBatch: nat, flatSteps: seq<Step>)
    requires GoodFiles(files) && TreeBuilt(|files|, mergers, ranges, final) && treeBatch > 0 && flatBatch > 0
    requires
      var tree, flat := Plan(files, mergers, final), FlatPlan(files);
      && Sized(tree, Start(tree, treeBatch)) && Stuck(tree, Run(tree, treeBatch, treeSteps))
      && Sized(flat, Start(flat, flatBatch)) && Stuck(flat, Run(flat, flatBatch, flatSteps))
    ensures
      var tree, flat := Plan(files, mergers, final), FlatPlan(files);
      var a, b := Run(tree, treeBatch, treeSteps), Run(flat, flatBatch, flatSteps);
      && GoodInputs(files) && a.queues[final].Valid() && b.queues[flat.final].Valid()
      && Delivered(tree, a) == Delivered(flat, b) == StreamOf(Merged(files)) && InSourceOrder(Merged(files))
  {
    var flat := FlatPlan(files);
    assert flat.final == |files|;
    hide *;
    StuckRunDeliversAll(files, mergers, ranges, final, treeBatch, treeSteps);
    FlatFits(files);
    MergedInSourceOrder(files);
    var c := files + [Merged(files)];
    RunKeeps(flat, c, flatBatch, flatSteps);
    StuckIsDelivered(flat, c, Run(flat, flatBatch, flatSteps));
  }
}
