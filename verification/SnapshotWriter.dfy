/** The asynchronous snapshot writer: callers append to a queue under a lock, one worker takes snapshots from
    it and prints them. Compared with the synchronous mode, which prints at once. */
module SnapshotWriters {

  /** What the worker has in hand between two locked sections. */
  datatype Hand<T> = Idle | Holding(x: T) | Printed

  datatype Writer<T> = Writer(
    queue: seq<T>, hand: Hand<T>, output: seq<T>, finishing: bool, exited: bool, submitted: nat, written: nat)

  datatype Step<T> = Write(x: T) | RequestFinish | TakeOne | Print | CountWritten | Exit

  predicate WorkerStep<T>(step: Step<T>) {
    !step.Write? && !step.RequestFinish?
  }

  predicate Enabled<T>(w: Writer<T>, step: Step<T>) {
    match step
    case Write(_) => true
    case RequestFinish => true
    case TakeOne => !w.exited && w.hand.Idle? && w.queue != []
    case Print => !w.exited && w.hand.Holding?
    case CountWritten => !w.exited && w.hand.Printed?
    case Exit => !w.exited && w.hand.Idle? && w.queue == [] && w.finishing
  }

  /** A disabled step leaves the writer alone. */
  function Next<T>(w: Writer<T>, step: Step<T>): Writer<T> {
    if !Enabled(w, step) then w
    else
      match step
      case Write(x) => if w.finishing then w else w.(queue := w.queue + [x], submitted := w.submitted + 1)
      case RequestFinish => w.(finishing := true)
      case TakeOne => w.(hand := Holding(w.queue[0]), queue := w.queue[1..])
      case Print => w.(hand := Printed, output := w.output + [w.hand.x])
      case CountWritten => w.(hand := Idle, written := w.written + 1)
      case Exit => w.(exited := true)
  }

  function Fresh<T>(): Writer<T> {
    Writer([], Idle, [], false, false, 0, 0)
  }

  function Run<T>(steps: seq<Step<T>>): Writer<T> {
    if steps == [] then Fresh() else Next(Run(steps[..|steps| - 1]), steps[|steps| - 1])
  }

  // ---- what the callers asked for ----

  /** Whether finishing was requested. */
  predicate Finishing<T>(steps: seq<Step<T>>) {
    exists k :: 0 <= k < |steps| && steps[k] == RequestFinish
  }

  /** The snapshots handed over before finishing was requested. */
  function Accepted<T>(steps: seq<Step<T>>): seq<T> {
    if steps == [] then []
    else
      var before, last := steps[..|steps| - 1], steps[|steps| - 1];
      Accepted(before) + if last.Write? && !Finishing(before) then [last.x] else []
  }

  function InHand<T>(w: Writer<T>): seq<T> {
    if w.hand.Holding? then [w.hand.x] else []
  }

  ghost predicate Conserves<T>(w: Writer<T>, accepted: seq<T>) {
    && w.output + InHand(w) + w.queue == accepted
    && w.submitted == |accepted|
    && |w.output| == w.written + (if w.hand.Printed? then 1 else 0)
    && (w.exited ==> w.finishing && w.hand.Idle? && w.queue == [])
  }

  lemma NextConserves<T>(w: Writer<T>, accepted: seq<T>, step: Step<T>)
    requires Conserves(w, accepted)
    ensures Conserves(Next(w, step), accepted + if step.Write? && !w.finishing then [step.x] else [])
  {
    var w' := Next(w, step);
    assert accepted + [] == accepted;
    if step.TakeOne? && Enabled(w, step) {
      assert w.queue == [w.queue[0]] + w.queue[1..];
      assert w'.output + InHand(w') + w'.queue == w.output + [] + w.queue;
    }
  }

  /** For every schedule of callers and worker: written, then in hand, then queued is exactly what was
      accepted, in order; and once the worker has gone, everything accepted is written. */
  lemma {:induction false} EveryScheduleConserves<T>(steps: seq<Step<T>>)
    ensures Conserves(Run(steps), Accepted(steps))
    ensures Run(steps).finishing <==> Finishing(steps)
    ensures Run(steps).exited ==> Run(steps).output == Accepted(steps) && Run(steps).written == Run(steps).submitted
  {
    if steps != [] {
      var n := |steps| - 1;
      var before, last := steps[..n], steps[n];
      EveryScheduleConserves(before);
      NextConserves(Run(before), Accepted(before), last);
      assert Finishing(steps) <==> Finishing(before) || last == RequestFinish by {
        if Finishing(before) {
          var k :| 0 <= k < |before| && before[k] == RequestFinish;
          assert steps[k] == RequestFinish;
        }
        if last == RequestFinish {
          assert steps[n] == RequestFinish;
        }
      }
    }
  }

  // ---- the synchronous mode ----

  /** Synchronous writes print at once; finishing does nothing. */
  function SyncRun<T>(steps: seq<Step<T>>): seq<T> {
    if steps == [] then []
    else SyncRun(steps[..|steps| - 1]) + if steps[|steps| - 1].Write? then [steps[|steps| - 1].x] else []
  }

  /** Up to the request to finish the two modes print the same snapshots in the same order; later writes are
      dropped by the asynchronous mode alone. */
  lemma AsyncMatchesSync<T>(steps: seq<Step<T>>, n: nat)
    requires n <= |steps| && Run(steps).exited
    requires !Finishing(steps[..n]) && (n < |steps| ==> steps[n] == RequestFinish)
    ensures Run(steps).output == SyncRun(steps[..n])
  {
    EveryScheduleConserves(steps);
    AcceptedUpTo(steps[..n]);
    NothingAcceptedAfter(steps, n);
  }

  lemma {:induction false} AcceptedUpTo<T>(steps: seq<Step<T>>)
    requires !Finishing(steps)
    ensures Accepted(steps) == SyncRun(steps)
  {
    if steps != [] {
      var before := steps[..|steps| - 1];
      assert forall k :: 0 <= k < |before| ==> before[k] == steps[k];
      AcceptedUpTo(before);
    }
  }

  lemma {:induction false} NothingAcceptedAfter<T>(steps: seq<Step<T>>, n: nat)
    requires n <= |steps| && (n < |steps| ==> steps[n] == RequestFinish)
    ensures Accepted(steps) == Accepted(steps[..n])
    decreases |steps| - n, |steps|
  {
    if n == |steps| {
      assert steps[..n] == steps;
    } else {
      var m := |steps| - 1;
      var before := steps[..m];
      if n == m {
        assert steps[..n] == before;
      } else {
        assert before[n] == RequestFinish;
        assert Finishing(before);
        NothingAcceptedAfter(before, n);
        assert before[..n] == steps[..n];
      }
    }
  }

  // ---- finishing ends ----

  /** Worker steps still to be made. */
  function Work<T>(w: Writer<T>): nat {
    3 * |w.queue|
    + (match w.hand case Idle => 0 case Holding(_) => 2 case Printed => 1)
    + (if w.exited then 0 else 1)
  }

  /** Once finishing is requested, callers add no work, every worker step removes some, and as long as the worker
      has not gone it has a step to make: so it goes after a bounded number of steps. */
  lemma FinishingEnds<T>(w: Writer<T>, step: Step<T>)
    requires w.finishing && (w.exited ==> w.hand.Idle? && w.queue == [])
    ensures Next(w, step).finishing && Work(Next(w, step)) <= Work(w)
    ensures WorkerStep(step) && Enabled(w, step) ==> Work(Next(w, step)) == Work(w) - 1
    ensures w.exited <==> Work(w) == 0
    ensures !w.exited ==>
      var next: Step<T> := if w.hand.Holding? then Print else if w.hand.Printed? then CountWritten
                           else if w.queue != [] then TakeOne else Exit;
      WorkerStep(next) && Enabled(w, next)
  {
  }

  // ---- the object ----

  class AsyncSnapshotWriter<T> {
    const sync: bool
    var queue: seq<T>
    var hand: Hand<T>
    var output: seq<T>
    var finishRequested: bool
    var exited: bool
    var submittedCount: nat
    var writtenCount: nat

    ghost function Value(): Writer<T>
      reads this
    {
      Writer(queue, hand, output, finishRequested, exited, submittedCount, writtenCount)
    }

    constructor (sync: bool)
      ensures this.sync == sync && Value() == Fresh()
    {
      this.sync := sync;
      queue, hand, output, finishRequested, exited := [], Idle, [], false, false;
      submittedCount, writtenCount := 0, 0;
    }

    method WriteSnapshot(x: T)
      modifies this
      ensures !sync ==> Value() == Next(old(Value()), Write(x))
      ensures sync ==>
        Value() == old(Value()).(output := old(output) + [x], submitted := old(submittedCount) + 1,
                                 written := old(writtenCount) + 1)
    {
      if sync {
        submittedCount := submittedCount + 1;
        output := output + [x];
        writtenCount := writtenCount + 1;
        return;
      }
      if finishRequested {
        return;
      }
      queue := queue + [x];
      submittedCount := submittedCount + 1;
    }

    /** One pass of the worker loop: sleep, exit, or take a snapshot and print it. */
    method WorkerTurn()
      requires !exited && hand == Idle
      modifies `queue, `hand, `output, `exited, `writtenCount
      ensures
        if old(queue) != [] then
          Value() == Next(Next(Next(old(Value()), TakeOne), Print), CountWritten)
        else Value() == Next(old(Value()), Exit)
    {
      if queue == [] {
        exited := finishRequested;
        return;
      }
      hand := Holding(queue[0]);
      queue := queue[1..];
      output := output + [hand.x];
      hand := Printed;
      writtenCount := writtenCount + 1;
      hand := Idle;
    }

    /** The worker's next atomic step, wherever it stands. */
    method WorkerStepOnce() returns (ghost step: Step<T>)
      requires finishRequested && !exited
      modifies `queue, `hand, `output, `exited, `writtenCount
      ensures WorkerStep(step) && Enabled(old(Value()), step) && Value() == Next(old(Value()), step)
    {
      match hand
      case Holding(x) =>
        output, hand, step := output + [x], Printed, Print;
      case Printed =>
        writtenCount, hand, step := writtenCount + 1, Idle, CountWritten;
      case Idle =>
        if queue == [] {
          exited, step := true, Exit;
        } else {
          hand, queue, step := Holding(queue[0]), queue[1..], TakeOne;
        }
    }

    /** Synchronous mode has nothing to finish. Otherwise ask the worker to finish and wait for it, whatever it has in
        hand: everything accepted has then been printed. */
    method Finish(ghost accepted: seq<T>)
      requires Conserves(Value(), accepted)
      modifies this
      ensures sync ==> Value() == old(Value())
      ensures !sync ==> exited && finishRequested && output == accepted && writtenCount == submittedCount
    {
      if sync {
        return;
      }
      finishRequested := true;
      while !exited
        invariant finishRequested && Conserves(Value(), accepted)
        decreases Work(Value())
      {
        ghost var w := Value();
        ghost var step := WorkerStepOnce();
        NextConserves(w, accepted, step);
        FinishingEnds(w, step);
        assert accepted + [] == accepted;
      }
    }
  }
}
