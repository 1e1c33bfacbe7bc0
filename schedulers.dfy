/** The pending-request queue and its three dispatch policies: IOScheduler,
    FCFSScheduler, SSTFScheduler and CLOOKScheduler (main.py:57-111). Each
    subclass only adds one policy method to the base queue, so the four classes
    are one class here, with the policy methods side by side. */
module Schedulers {
  import opened Wrappers
  import opened Requests
  import opened QueueOps
  import opened BlockOrder
  import opened Disk

  /** The head position both SSTF and C-LOOK assume: the hard-coded
      current_track = 0, never the real head of the disk. */
  const CURRENT_TRACK: int := 0

  /** The distance SSTF minimises. */
  function Distance(r: IORequest): (d: nat)
  {
    Abs(r.blockNum - CURRENT_TRACK)
  }

  /** s[i] has the smallest distance, and no earlier request has the same
      distance: the request a left-to-right scan with a strict < keeps. */
  ghost predicate IsSstfPick(s: seq<IORequest>, i: int)
  {
    0 <= i < |s| &&
    forall j :: 0 <= j < |s| ==>
      Distance(s[i]) < Distance(s[j]) || (Distance(s[i]) == Distance(s[j]) && i <= j)
  }

  ghost predicate HasAtOrAbove(s: seq<IORequest>)
  {
    exists j :: 0 <= j < |s| && s[j].blockNum >= CURRENT_TRACK
  }

  /** s[i] is at or above the reference track, has the smallest block among
      those that are, and is the earliest in list order among equal blocks. */
  ghost predicate EarliestLowestAtOrAbove(s: seq<IORequest>, i: int)
  {
    0 <= i < |s| && s[i].blockNum >= CURRENT_TRACK &&
    forall j :: 0 <= j < |s| && s[j].blockNum >= CURRENT_TRACK ==>
      s[i].blockNum < s[j].blockNum || (s[i].blockNum == s[j].blockNum && i <= j)
  }

  /** s[i] has the smallest block overall, earliest in list order among equals. */
  ghost predicate EarliestLowest(s: seq<IORequest>, i: int)
  {
    0 <= i < |s| &&
    forall j :: 0 <= j < |s| ==>
      s[i].blockNum < s[j].blockNum || (s[i].blockNum == s[j].blockNum && i <= j)
  }

  /** The request C-LOOK serves: the lowest block at or above the reference
      track, or, when every request lies below it, the wrap-around to the
      lowest block of all. */
  ghost predicate IsClookPick(s: seq<IORequest>, i: int)
  {
    if HasAtOrAbove(s) then EarliestLowestAtOrAbove(s, i) else EarliestLowest(s, i)
  }

  /** At most one position satisfies the SSTF rule, so it fixes the result. */
  lemma SstfPickUnique(s: seq<IORequest>, i: int, j: int)
    requires IsSstfPick(s, i) && IsSstfPick(s, j)
    ensures i == j
  {
    assert Distance(s[i]) <= Distance(s[j]) && Distance(s[j]) <= Distance(s[i]);
  }

  /** At most one position satisfies the C-LOOK rule, so it fixes the result. */
  lemma ClookPickUnique(s: seq<IORequest>, i: int, j: int)
    requires IsClookPick(s, i) && IsClookPick(s, j)
    ensures i == j
  {
    assert s[i].blockNum <= s[j].blockNum && s[j].blockNum <= s[i].blockNum;
  }

  /** Blocks 50, 499, 10 queued in that order: SSTF serves 10 first, then 50
      (still measured from block 0, not from where the head went), then 499. */
  lemma SstfScenario()
    ensures var a, b, c := IORequest(0, Read, 50), IORequest(1, Write, 499), IORequest(2, Read, 10);
            IsSstfPick([a, b, c], 2) && IsSstfPick([a, b], 0) && IsSstfPick([b], 0)
  {
  }

  /** C-LOOK with blocks -3, 40, 7, 7 serves the first 7; with only negative
      blocks -5, -7, -7 it wraps to the first -7. */
  lemma ClookScenario()
    ensures var a, b, c, d := IORequest(0, Read, -3), IORequest(1, Read, 40), IORequest(2, Write, 7), IORequest(0, Read, 7);
            IsClookPick([a, b, c, d], 2)
    ensures var a, b, c := IORequest(0, Read, -5), IORequest(1, Read, -7), IORequest(2, Write, -7);
            IsClookPick([a, b, c], 1)
  {
    var a, b, c := IORequest(0, Read, -5), IORequest(1, Read, -7), IORequest(2, Write, -7);
    var s := [a, b, c];
    assert !HasAtOrAbove(s) by {
      forall j | 0 <= j < |s| ensures s[j].blockNum < CURRENT_TRACK { }
    }
  }

  /** The picks of both policies are the first occurrence of their value, so
      list.remove drops exactly that position. */
  lemma PickIsFirstOccurrence(s: seq<IORequest>, i: int)
    requires IsSstfPick(s, i) || IsClookPick(s, i)
    ensures forall j :: 0 <= j < i ==> s[j] != s[i]
  {
  }

  /** Taking out position i loses nothing and duplicates nothing. */
  lemma {:induction false} RemovalConserves(s: seq<IORequest>, i: int)
    requires 0 <= i < |s|
    ensures |s[..i] + s[i + 1..]| == |s| - 1
    ensures multiset(s[..i] + s[i + 1..]) + multiset{s[i]} == multiset(s)
  {
    assert s == s[..i] + [s[i]] + s[i + 1..];
  }

  /** The sorted scan of clook_schedule: the first sorted request at or above
      the reference track, or the first sorted request when there is none, is
      the C-LOOK pick of the unsorted queue. */
  lemma ClookPickFromSorted(s: seq<IORequest>, k: int) returns (i: int)
    requires 0 <= k < |SortByBlock(s)|
    requires forall p :: 0 <= p < k ==> SortByBlock(s)[p].blockNum < CURRENT_TRACK
    requires SortByBlock(s)[k].blockNum >= CURRENT_TRACK
             || (k == 0 && forall p :: 0 <= p < |SortByBlock(s)| ==> SortByBlock(s)[p].blockNum < CURRENT_TRACK)
    ensures IsClookPick(s, i) && s[i] == SortByBlock(s)[k]
  {
    var t := SortByBlock(s);
    SortByBlockSorted(s);
    SortedPickIsEarliest(s, k);
    i :| 0 <= i < |s| && s[i] == t[k] && forall j :: 0 <= j < i ==> s[j].blockNum != s[i].blockNum;
    forall j | 0 <= j < |s| ensures exists p :: 0 <= p < |t| && t[p] == s[j] {
      assert s[j] in multiset(s);
      assert s[j] in multiset(t);
    }
    if t[k].blockNum >= CURRENT_TRACK {
      forall j | 0 <= j < |s| && s[j].blockNum >= CURRENT_TRACK
        ensures s[i].blockNum < s[j].blockNum || (s[i].blockNum == s[j].blockNum && i <= j)
      {
        var p :| 0 <= p < |t| && t[p] == s[j];
        assert k <= p;
      }
    } else {
      forall j | 0 <= j < |s|
        ensures s[i].blockNum < s[j].blockNum || (s[i].blockNum == s[j].blockNum && i <= j)
        ensures s[j].blockNum < CURRENT_TRACK
      {
        var p :| 0 <= p < |t| && t[p] == s[j];
      }
    }
  }

  class IOScheduler {
    /** The pending requests, oldest first. */
    var requests: seq<IORequest>

    constructor ()
      ensures requests == []
    {
      requests := [];
    }

    /** Appends a request at the tail of the queue. */
    method AddRequest(request: IORequest)
      modifies this
      ensures requests == old(requests) + [request]
    {
      requests := requests + [request];
    }

    /** pop(0): the oldest request, or None on an empty queue. */
    method DispatchRequest() returns (r: Option<IORequest>)
      modifies this
      ensures old(requests) == [] ==> r == None && requests == old(requests)
      ensures old(requests) != [] ==> r == Some(old(requests)[0]) && requests == old(requests)[1..]
      ensures r.Some? ==> multiset(requests) + multiset{r.value} == multiset(old(requests))
    {
      if requests != [] {
        r := Some(requests[0]);
        assert requests == [requests[0]] + requests[1..];
        requests := requests[1..];
      } else {
        r := None;
      }
    }

    /** FCFS is plain dispatch in arrival order. */
    method FcfsSchedule() returns (r: Option<IORequest>)
      modifies this
      ensures old(requests) == [] ==> r == None && requests == old(requests)
      ensures old(requests) != [] ==> r == Some(old(requests)[0]) && requests == old(requests)[1..]
    {
      r := DispatchRequest();
    }

    /** SSTF: serve and remove the first request nearest to the reference track. */
    method SstfSchedule() returns (r: Result<IORequest, Fault>)
      modifies this
      ensures old(requests) == [] ==> r == Failure(ValueError) && requests == old(requests)
      ensures old(requests) != [] ==>
        r.Success? &&
        exists i :: IsSstfPick(old(requests), i) && r.value == old(requests)[i]
                    && requests == old(requests)[..i] + old(requests)[i + 1..]
      ensures r.Success? ==> multiset(requests) + multiset{r.value} == multiset(old(requests))
    {
      var minDistance: Option<nat> := None;  // no candidate yet (the source's infinity)
      var selectedRequest: Option<IORequest> := None;
      ghost var index := 0;
      for k := 0 to |requests|
        invariant selectedRequest.None? <==> k == 0
        invariant minDistance.None? <==> k == 0
        invariant k > 0 ==> 0 <= index < k && selectedRequest == Some(requests[index])
                            && minDistance == Some(Distance(requests[index]))
        invariant k > 0 ==> forall j :: 0 <= j < k ==>
          Distance(requests[index]) < Distance(requests[j])
          || (Distance(requests[index]) == Distance(requests[j]) && index <= j)
      {
        var distance := Abs(requests[k].blockNum - CURRENT_TRACK);
        if minDistance.None? || distance < minDistance.value {
          minDistance := Some(distance);
          selectedRequest := Some(requests[k]);
          index := k;
        }
      }
      if selectedRequest.None? {
        // remove(None) on an empty list raises
        return Failure(ValueError);
      }
      PickIsFirstOccurrence(requests, index);
      RemoveFirstAt(requests, index);
      RemovalConserves(requests, index);
      requests := RemoveFirst(requests, selectedRequest.value);
      r := Success(selectedRequest.value);
    }

    /** C-LOOK: serve and remove the lowest block at or above the reference
        track, wrapping to the lowest block when none is. */
    method ClookSchedule() returns (r: Result<IORequest, Fault>)
      modifies this
      ensures old(requests) == [] ==> r == Failure(IndexError) && requests == old(requests)
      ensures old(requests) != [] ==>
        r.Success? &&
        exists i :: IsClookPick(old(requests), i) && r.value == old(requests)[i]
                    && requests == old(requests)[..i] + old(requests)[i + 1..]
      ensures r.Success? ==> multiset(requests) + multiset{r.value} == multiset(old(requests))
    {
      var sortedRequests := SortByBlock(requests);
      SortByBlockSorted(requests);
      for k := 0 to |sortedRequests|
        invariant forall p :: 0 <= p < k ==> sortedRequests[p].blockNum < CURRENT_TRACK
      {
        var request := sortedRequests[k];
        if request.blockNum >= CURRENT_TRACK {
          ghost var i := ClookPickFromSorted(requests, k);
          PickIsFirstOccurrence(requests, i);
          RemoveFirstAt(requests, i);
          RemovalConserves(requests, i);
          requests := RemoveFirst(requests, request);
          return Success(request);
        }
      }
      // every request lies below the reference track: wrap around
      if |sortedRequests| == 0 {
        return Failure(IndexError);
      }
      var selectedRequest := sortedRequests[0];
      ghost var i := ClookPickFromSorted(requests, 0);
      PickIsFirstOccurrence(requests, i);
      RemoveFirstAt(requests, i);
      RemovalConserves(requests, i);
      requests := RemoveFirst(requests, selectedRequest);
      r := Success(selectedRequest);
    }
  }
}
