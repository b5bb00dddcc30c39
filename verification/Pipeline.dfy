/** From files to books: a merge tree of concurrent mergers feeding concurrent book workers ends in the same
    books as one merge feeding one manager. */
module Pipelines {
  import opened Domain
  import opened BookManagers
  import opened Merging
  import opened MergeQueues
  import opened MergeTrees
  import Network = MergeNetworks
  import Progress = MergeProgress
  import Shards = ShardedBooks

  /** What the dispatcher does with the items it takes: it processes the events and stops at the end marker. */
  function EventsOf(items: seq<QueueItem>): seq<Event> {
    if items == [] || items[0].End? then [] else [items[0].event] + EventsOf(items[1..])
  }

  lemma {:induction false} StreamRoundTrip(events: seq<Event>)
    ensures EventsOf(StreamOf(events)) == events
  {
    if events != [] {
      StreamRoundTrip(events[1..]);
      assert StreamOf(events)[1..] == StreamOf(events[1..]);
    }
  }

  /** Any schedule of the merge network that can go no further, any number of book workers, any schedule of
      theirs that ends drained: the books are those of one manager fed with the flat merge. */
  lemma ConcurrentPipelineIsSequential(
    files: Inputs, mergers: seq<Merger>, ranges: seq<Range>, final: nat, batch: nat, steps: seq<Network.Step>,
    workers: nat, workerBatch: nat, bookSteps: seq<Shards.Step>)
    requires GoodFiles(files) && TreeBuilt(|files|, mergers, ranges, final) && batch > 0
    requires
      var plan := Network.Plan(files, mergers, final);
      && Network.Sized(plan, Network.Start(plan, batch)) && Progress.Stuck(plan, Network.Run(plan, batch, steps))
      && Network.Run(plan, batch, steps).queues[final].Valid()
      && Shards.Dispatched(bookSteps) == EventsOf(Network.Delivered(plan, Network.Run(plan, batch, steps)))
    requires workers > 0 && workerBatch > 0 && Shards.Drained(Shards.Run(workers, workerBatch, bookSteps).queues)
    requires GoodInputs(files) && Shards.CancelConsistentStream(Merged(files))
    ensures
      var m := ManagerRun(EMPTY_MANAGER, Merged(files));
      var s := Shards.Run(workers, workerBatch, bookSteps);
      Shards.Merged(s.managers) == m.books && s.processed == m.processed && s.unresolved == m.unresolved
  {
    hide *;
    Progress.StuckRunDeliversAll(files, mergers, ranges, final, batch, steps);
    StreamRoundTrip(Merged(files));
    Shards.DrainedStateIsSequential(workers, workerBatch, bookSteps);
  }
}
