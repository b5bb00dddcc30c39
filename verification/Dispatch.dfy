/** The dispatcher at the end of the merge and the summary it keeps. */
module Dispatching {
  import opened Domain
  import opened Merging
  import opened MergeQueues

  /** Adjacent pairs out of order. */
  function Violations(seen: seq<Event>): nat {
    if |seen| < 2 then 0
    else
      var n := |seen| - 1;
      Violations(seen[..n]) + if ComesBefore(seen[n], seen[n - 1]) then 1 else 0
  }

  /** No violation is counted if and only if the whole stream is in order. */
  lemma {:induction false} NoViolationsIffSorted(seen: seq<Event>)
    ensures Violations(seen) == 0 <==> Sorted(seen)
    ensures Sorted(seen) <==> forall i, j :: 0 <= i < j < |seen| ==> !SourceBefore(seen[j], seen[i])
  {
    SortedMeans(seen);
    if |seen| >= 2 {
      var n := |seen| - 1;
      NoViolationsIffSorted(seen[..n]);
      SortedAppend(seen[..n], seen[n]);
      assert seen[..n] + [seen[n]] == seen;
    }
  }

  /** In order, field by field: no event has an earlier timestamp than one before it, and so on down to the line. */
  lemma SortedMeans(seen: seq<Event>)
    ensures Sorted(seen) <==> forall i, j :: 0 <= i < j < |seen| ==> !SourceBefore(seen[j], seen[i])
  {
    if Sorted(seen) {
      forall i, j | 0 <= i < j < |seen|
        ensures !SourceBefore(seen[j], seen[i])
      {
        assert !ComesBefore(seen[j], seen[i]);
      }
    } else {
      var i, j :| 0 <= i < j < |seen| && ComesBefore(seen[j], seen[i]);
      assert SourceBefore(seen[j], seen[i]);
    }
  }

  lemma SortedAppend(front: seq<Event>, e: Event)
    requires front != []
    ensures Sorted(front + [e]) <==> Sorted(front) && !ComesBefore(e, front[|front| - 1])
  {
    var n := |front|;
    var all := front + [e];
    assert all[n] == e && all[n - 1] == front[n - 1];
    if Sorted(front) && !ComesBefore(e, front[n - 1]) {
      forall i | 0 <= i < n
        ensures !ComesBefore(e, front[i])
      {
        assert i == n - 1 || !ComesBefore(front[n - 1], front[i]);
      }
    }
    if Sorted(all) {
      forall i, j | 0 <= i < j < n
        ensures !ComesBefore(front[j], front[i])
      {
        assert front[i] == all[i] && front[j] == all[j];
      }
    }
  }

  function FirstTen(seen: seq<Event>): seq<Event> {
    if |seen| <= 10 then seen else seen[..10]
  }

  function LastTen(seen: seq<Event>): seq<Event> {
    if |seen| <= 10 then seen else seen[|seen| - 10..]
  }

  lemma OneMore(seen: seq<Event>, e: Event)
    ensures Violations(seen + [e])
         == Violations(seen) + if seen != [] && ComesBefore(e, seen[|seen| - 1]) then 1 else 0
    ensures FirstTen(seen + [e]) == if |FirstTen(seen)| < 10 then FirstTen(seen) + [e] else FirstTen(seen)
    ensures LastTen(seen + [e]) == (if |LastTen(seen)| == 10 then LastTen(seen)[1..] else LastTen(seen)) + [e]
  {
    assert (seen + [e])[..|seen|] == seen;
    if |seen| >= 10 {
      assert (seen + [e])[|seen| - 9..] == seen[|seen| - 10..][1..] + [e];
    }
  }

  class ProcessingSummary {
    var total: nat
    var violations: nat
    var firstTimestamp: Option<nat>
    var lastTimestamp: Option<nat>
    var previous: Option<Event>
    var firstEvents: seq<Event>
    var lastEvents: seq<Event>
    ghost var seen: seq<Event>

    ghost predicate Valid()
      reads this
    {
      && total == |seen|
      && violations == Violations(seen)
      && previous == (if seen == [] then None else Some(seen[|seen| - 1]))
      && firstTimestamp == (if seen == [] then None else Some(seen[0].timestamp))
      && lastTimestamp == (if seen == [] then None else Some(seen[|seen| - 1].timestamp))
      && firstEvents == FirstTen(seen) && lastEvents == LastTen(seen)
    }

    constructor ()
      ensures Valid() && seen == []
    {
      total, violations, firstTimestamp, lastTimestamp, previous := 0, 0, None, None, None;
      firstEvents, lastEvents, seen := [], [], [];
    }

    method Observe(e: Event)
      requires Valid()
      modifies this
      ensures Valid() && seen == old(seen) + [e]
    {
      OneMore(seen, e);
      assert |firstEvents| <= 10 && |lastEvents| <= 10;
      hide Violations, FirstTen, LastTen, ComesBefore;
      if previous.Some? && ComesBefore(e, previous.value) {
        violations := violations + 1;
      }
      previous := Some(e);
      if firstTimestamp == None {
        firstTimestamp := Some(e.timestamp);
      }
      lastTimestamp := Some(e.timestamp);
      if |firstEvents| < 10 {
        firstEvents := firstEvents + [e];
      }
      if |lastEvents| == 10 {
        lastEvents := lastEvents[1..];
      }
      lastEvents := lastEvents + [e];
      total := total + 1;
      seen := seen + [e];
    }
  }

  /** The dispatch loop: the processor receives exactly the merged events, and the summary counts no
      violation if and only if they are in order. */
  method DispatchMergedQueue(ghost merged: seq<Event>, stream: seq<QueueItem>, summary: ProcessingSummary)
    returns (processed: seq<Event>)
    requires stream == StreamOf(merged) && summary.Valid() && summary.seen == []
    modifies summary
    ensures processed == merged
    ensures summary.Valid() && summary.seen == merged && (summary.violations == 0 <==> Sorted(merged))
  {
    processed := [];
    while stream[|processed|] != End
      invariant processed <= merged
      invariant summary.Valid() && summary.seen == processed
      decreases |merged| - |processed|
    {
      var e := stream[|processed|].event;
      processed := processed + [e];
      summary.Observe(e);
    }
    NoViolationsIffSorted(merged);
  }
}
