/** simulate (main.py:138-173): rounds of arrivals, each followed by a full
    drain of the queue through the disk model. The requests each round brings
    are an input here (one sequence per round: the batches of the three
    processes one after the other). */
module Simulation {
  import opened Config
  import opened Wrappers
  import opened Requests
  import opened Disk
  import opened Schedulers

  /** All requests of the rounds, in arrival order. */
  function Flatten(batches: seq<seq<IORequest>>): (all: seq<IORequest>)
  {
    if batches == [] then [] else Flatten(batches[..|batches| - 1]) + batches[|batches| - 1]
  }

  /** Head position after reading `reqs` in order starting from `pos`. */
  function HeadAfter(pos: int, reqs: seq<IORequest>): (head: int)
  {
    if reqs == [] then pos else reqs[|reqs| - 1].blockNum
  }

  /** Read times of serving `reqs` in order, the head starting at `pos` and
      moving to each request's block number. */
  function ServiceTimes(tracks: int, pos: int, reqs: seq<IORequest>): (times: seq<int>)
    decreases |reqs|
  {
    if reqs == [] then []
    else [ServiceTime(tracks, pos, reqs[0].blockNum)] + ServiceTimes(tracks, reqs[0].blockNum, reqs[1..])
  }

  function Sum(xs: seq<int>): (total: int)
  {
    if xs == [] then 0 else Sum(xs[..|xs| - 1]) + xs[|xs| - 1]
  }

  /** The successive values of last_completion_time: running sums of the
      service times. */
  function Timeline(xs: seq<int>): (stamps: seq<int>)
  {
    if xs == [] then [] else Timeline(xs[..|xs| - 1]) + [Sum(xs)]
  }

  /** Serving one more request appends its read time, charged from where the
      head stopped. */
  lemma {:induction false} ServiceTimesSnoc(tracks: int, pos: int, reqs: seq<IORequest>, r: IORequest)
    decreases |reqs|
    ensures ServiceTimes(tracks, pos, reqs + [r])
         == ServiceTimes(tracks, pos, reqs) + [ServiceTime(tracks, HeadAfter(pos, reqs), r.blockNum)]
  {
    if reqs != [] {
      assert (reqs + [r])[1..] == reqs[1..] + [r];
      ServiceTimesSnoc(tracks, reqs[0].blockNum, reqs[1..], r);
      if |reqs| > 1 {
        assert reqs[1..][|reqs| - 2] == reqs[|reqs| - 1];
      }
    }
  }

  /** Pointwise meaning: the i-th time is a read from the previous request's
      block (from `pos` for the first) to the i-th block, so at least the
      rotational latency. */
  lemma {:induction false} ServiceTimesAt(tracks: int, pos: int, reqs: seq<IORequest>)
    decreases |reqs|
    ensures |ServiceTimes(tracks, pos, reqs)| == |reqs|
    ensures forall i :: 0 <= i < |reqs| ==>
      ServiceTimes(tracks, pos, reqs)[i]
        == ServiceTime(tracks, if i == 0 then pos else reqs[i - 1].blockNum, reqs[i].blockNum)
    ensures forall i :: 0 <= i < |reqs| ==> ServiceTimes(tracks, pos, reqs)[i] >= ROTATIONAL_LATENCY
  {
    if reqs != [] {
      var rest := reqs[1..];
      ServiceTimesAt(tracks, reqs[0].blockNum, rest);
      forall i | 1 <= i < |reqs|
        ensures ServiceTimes(tracks, pos, reqs)[i]
             == ServiceTime(tracks, reqs[i - 1].blockNum, reqs[i].blockNum)
      {
        assert ServiceTimes(tracks, pos, reqs)[i] == ServiceTimes(tracks, reqs[0].blockNum, rest)[i - 1];
        if i > 1 { assert rest[i - 2] == reqs[i - 1]; }
      }
    }
  }

  /** With positive service times, the completion timestamps are positive,
      strictly increase, and never pass the total. */
  lemma {:induction false} TimelineIncreasing(xs: seq<int>)
    requires forall i :: 0 <= i < |xs| ==> xs[i] > 0
    ensures |Timeline(xs)| == |xs| && Sum(xs) >= 0
    ensures forall i :: 0 <= i < |xs| ==> 0 < Timeline(xs)[i] <= Sum(xs)
    ensures forall i, j :: 0 <= i < j < |xs| ==> Timeline(xs)[i] < Timeline(xs)[j]
  {
    if xs != [] {
      var init := xs[..|xs| - 1];
      TimelineIncreasing(init);
      assert Timeline(xs) == Timeline(init) + [Sum(xs)];
    }
  }

  /** last_completion_time strictly increases over a drain, whatever the
      requests and wherever the head starts. */
  lemma CompletionTimestampsIncrease(tracks: int, pos: int, reqs: seq<IORequest>)
    ensures |Timeline(ServiceTimes(tracks, pos, reqs))| == |reqs|
    ensures forall i, j :: 0 <= i < j < |reqs| ==>
      Timeline(ServiceTimes(tracks, pos, reqs))[i] < Timeline(ServiceTimes(tracks, pos, reqs))[j]
  {
    ServiceTimesAt(tracks, pos, reqs);
    TimelineIncreasing(ServiceTimes(tracks, pos, reqs));
  }

  /** One run against a fresh disk. Whatever the scheduler's policy, the drain
      calls dispatch_request, so requests are served in arrival order: the
      results are the read times of the queue's prior contents followed by
      every batch, in order, from head position 0; the queue ends empty. */
  method Simulate(scheduler: IOScheduler, batches: seq<seq<IORequest>>) returns (results: seq<int>)
    requires |batches| == MAX_REQUESTS
    modifies scheduler
    ensures scheduler.requests == []
    ensures results == ServiceTimes(TRACKS, 0, old(scheduler.requests) + Flatten(batches))
    ensures |results| == |old(scheduler.requests)| + |Flatten(batches)|
  {
    var hardDrive := new HardDrive();
    results := [];
    var lastCompletionTime := 0;
    ghost var served: seq<IORequest> := [];
    for round := 0 to |batches|
      invariant hardDrive.tracks == TRACKS && hardDrive.position == HeadAfter(0, served)
      invariant served + scheduler.requests == old(scheduler.requests) + Flatten(batches[..round])
      invariant round > 0 ==> scheduler.requests == []
      invariant results == ServiceTimes(TRACKS, 0, served)
      invariant lastCompletionTime == Sum(results)
    {
      // arrival phase
      var batch := batches[round];
      for j := 0 to |batch|
        invariant hardDrive.tracks == TRACKS && hardDrive.position == HeadAfter(0, served)
        invariant served + scheduler.requests == old(scheduler.requests) + Flatten(batches[..round]) + batch[..j]
      {
        ghost var queued := scheduler.requests;
        scheduler.AddRequest(batch[j]);
        assert served + scheduler.requests == (served + queued) + [batch[j]];
        assert batch[..j + 1] == batch[..j] + [batch[j]];
      }
      assert batches[..round + 1][..round] == batches[..round];
      assert batch[..|batch|] == batch;
      // drain phase
      while scheduler.requests != []
        invariant hardDrive.tracks == TRACKS && hardDrive.position == HeadAfter(0, served)
        invariant served + scheduler.requests == old(scheduler.requests) + Flatten(batches[..round + 1])
        invariant results == ServiceTimes(TRACKS, 0, served)
        invariant lastCompletionTime == Sum(results)
        decreases |scheduler.requests|
      {
        var dispatched := scheduler.DispatchRequest();
        var request := dispatched.value;
        var startTime := lastCompletionTime;
        var seekTime := hardDrive.Read(request.blockNum);
        var endTime := startTime + seekTime;
        var completionTime := endTime - startTime;
        ServiceTimesSnoc(TRACKS, 0, served, request);
        served := served + [request];
        ghost var earlier := results;
        results := results + [completionTime];
        assert results[..|results| - 1] == earlier;
        lastCompletionTime := endTime;
      }
    }
    assert batches[..|batches|] == batches;
    assert served == served + scheduler.requests;
    ServiceTimesAt(TRACKS, 0, served);
  }
}
