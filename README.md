# Disk I/O scheduling simulator: a Dafny model

This project models the core of a small disk-scheduling simulator written in
Python (`main.py`). The core has three parts:

- **the disk timing model** (`HardDrive`). It keeps a head position. A seek
  costs `TRACK_SEEK_TIME` per unit of distance, except that exactly the
  distance `tracks - 1` costs `MAX_SEEK_TIME`. A read or write costs the
  seek plus `ROTATIONAL_LATENCY` and moves the head.
- **the request queue and its policies** (`IOScheduler` and its FCFS, SSTF and
  C-LOOK subclasses).
  - FCFS pops the oldest request.
  - SSTF scans for the first request nearest to a hard-coded track 0.
  - C-LOOK stably sorts by block and serves the lowest block at or above
    track 0, wrapping to the lowest block overall when there is none.
  - SSTF and C-LOOK remove the chosen request with `list.remove`.
- **the simulation run** (`simulate`): rounds of arrivals, each followed by a
  full drain of the queue through `HardDrive.read`. Each drain records the
  service time of every dispatch.

Files, one module each:

- `config.dfy`: the constants.
- `requests.dfy`: the `IORequest` value and the two exceptions.
- `wrappers.dfy`: `Option` and `Result`.
- `queue_ops.dfy`: `list.remove`.
- `block_order.dfy`: the stable sort by block number.
- `disk.dfy`: `HardDrive`.
- `schedulers.dfy`: `IOScheduler` and the three policies.
- `simulation.dfy`: `simulate`.

Some behaviours of the code that a reader may not expect; the model keeps all of them:

- `simulate` calls `dispatch_request` for every scheduler, so every run is
  FIFO. `sstf_schedule` and `clook_schedule` are modelled and proved, but
  `Simulate` never calls them.
- `simulate` passes the block number, not a track index, to `read`. The head
  therefore moves in block units, and the full-stroke clamp fires at a block
  distance of exactly 499.
- SSTF and C-LOOK on an empty queue raise, and the queue is left unchanged.
  SSTF raises `ValueError`, because `remove(None)` finds nothing. C-LOOK
  raises `IndexError`, because `sorted_requests[0]` does not exist. Both are
  modelled as a `Failure` result, not as a precondition.
- Block numbers are `int`. C-LOOK's wrap-around branch can only be reached
  with negative blocks, and the model keeps it reachable.

## Model

| member | source | states |
|---|---|---|
| Disk.HardDrive.constructor | main.py:28-30 | a new drive has `tracks == TRACKS` and its head at 0 |
| Disk.HardDrive.Seek | main.py:32-40 | the head ends at the target whatever it was; `tracks` is unchanged; the result is `MAX_SEEK_TIME` when the distance is exactly `tracks - 1` and otherwise distance times `TRACK_SEEK_TIME` (`SeekTime`) |
| Disk.HardDrive.Read | main.py:42-45 | returns the seek time of the move plus `ROTATIONAL_LATENCY` and moves the head to the target |
| Disk.HardDrive.Write | main.py:47-51 | the same cost and head movement as Read; the data has no effect |
| Disk.SeekTimeSymmetric | main.py:33-36 | the seek cost is the same in both directions |
| Disk.SeekTimeCases | main.py:33-36 | the clamp applies exactly at distance `tracks - 1`, and every other distance is charged linearly |
| Disk.FullStrokeServiceTime | main.py:32-45 | a full-stroke read on the 500-track disk costs 130 + 8 ms in either direction |
| Disk.SeekTimeNotMonotone | main.py:33-36 | on any disk of at least 16 tracks, distance `tracks - 1` costs less than both `tracks - 2` and `tracks`; on 500 tracks the three cost 4980, 130 and 5000 ms |
| Disk.ServiceTimeAtLeastLatency | main.py:42-51 | every read or write costs at least `ROTATIONAL_LATENCY` |
| QueueOps.RemoveFirst | main.py:92-110 | `list.remove` (the calls at lines 92, 105 and 110) takes out one element: the length drops by one, and the result plus the removed value is the original multiset |
| QueueOps.RemoveFirstAt | main.py:105 | when nothing before position i equals `s[i]`, removing `s[i]` deletes exactly position i and keeps the others in order |
| BlockOrder.SortByBlockSorted | main.py:101 | the sorted copy is ordered by block number, has the same length and is a permutation of the queue |
| BlockOrder.SortByBlockStable | main.py:101 | for every block number, the requests with that block keep their queue order in the sorted copy (a stable sort) |
| BlockOrder.SortedPickIsEarliest | main.py:101-106 | a sorted entry preceded only by smaller blocks is the first request of the queue with its block number |
| Schedulers.IOScheduler.constructor | main.py:58-59 | a new scheduler has an empty queue |
| Schedulers.IOScheduler.AddRequest | main.py:61-63 | appends the request at the tail and leaves earlier entries unchanged |
| Schedulers.IOScheduler.DispatchRequest | main.py:65-68 | on a non-empty queue it returns the oldest request and leaves the rest in order; on an empty queue it returns None and changes nothing; nothing is lost or duplicated |
| Schedulers.IOScheduler.FcfsSchedule | main.py:73-75 | behaves exactly as DispatchRequest (FIFO) |
| Schedulers.IOScheduler.SstfSchedule | main.py:80-93 | on a non-empty queue it returns the request at the unique position that satisfies `IsSstfPick`: minimal distance to block 0, and the first such position in queue order. It deletes exactly that position, keeps the others in order, and conserves the multiset. On an empty queue it fails with ValueError and leaves the queue unchanged |
| Schedulers.IOScheduler.ClookSchedule | main.py:98-111 | on a non-empty queue it returns the request at the unique position that satisfies `IsClookPick`: the lowest block at or above 0, or the lowest block overall if none is, earliest in queue order among equal blocks. It deletes exactly that position, keeps the others in order, and conserves the multiset. On an empty queue it fails with IndexError and leaves the queue unchanged |
| Schedulers.SstfPickUnique | main.py:86-90 | the SSTF selection rule fixes at most one position |
| Schedulers.ClookPickUnique | main.py:101-111 | the C-LOOK selection rule fixes at most one position |
| Schedulers.PickIsFirstOccurrence | main.py:86-92 | no request before the SSTF or C-LOOK pick is equal to it, so `remove` deletes the picked position |
| Schedulers.RemovalConserves | main.py:103-110 | deleting one position shrinks the queue by one, and the deleted request plus the remainder is the original multiset |
| Schedulers.ClookPickFromSorted | main.py:101-111 | the first sorted request at or above block 0, or the first sorted request when none is, is the C-LOOK pick of the unsorted queue |
| Schedulers.SstfScenario | main.py:82-93 | with blocks 50, 499 and 10 queued in that order, SSTF picks 10, then 50, then 499, always measured from block 0 |
| Schedulers.ClookScenario | main.py:100-111 | with blocks -3, 40, 7, 7, C-LOOK picks the first 7; with blocks -5, -7, -7 it wraps around to the first -7 |
| Simulation.ServiceTimesSnoc | main.py:152-157 | serving one more request appends its read time, charged from where the head stopped |
| Simulation.ServiceTimesAt | main.py:152-169 | the i-th recorded time is a read from the previous request's block (from the start position for the first) to the i-th block, and it is at least `ROTATIONAL_LATENCY` |
| Simulation.TimelineIncreasing | main.py:154-170 | with positive service times, the successive values of `last_completion_time` are positive and strictly increase |
| Simulation.CompletionTimestampsIncrease | main.py:152-170 | over any sequence of dispatches, `last_completion_time` strictly increases |
| Simulation.Simulate | main.py:138-173 | after MAX_REQUESTS rounds the queue is empty. Results are the read times of the queue's prior contents followed by every round's requests, in arrival order, starting from head position 0. There is exactly one result per enqueued request |

## Left out

- Request generation (`Process.generate_request`, `random.choice`, `randint`) is left out. Each round's requests are an input of `Simulate`. The three processes' requests for a round form one sequence, in roster order.
- The per-process request count drawn from `np.random.exponential` is left out. It is floating-point and random, and it only decides how long each round's input is.
- `analyze_results` and the `__main__` driver are left out. They do plotting and user interface only.
- The unused constants `CACHE_SIZE` and `WRITEBACK_TIME` are left out, and so are the empty READ and WRITE branches of the drain loop. No cache or write-back behaviour exists to model.
- Each result dictionary `{'completion_time': t}` has one key, so it is modelled as the number `t`.
- SSTF's `float('inf')` starting distance is modelled as `None`, meaning no candidate yet. Every distance is below it, as in the source.
- `IORequest` object identity is not modelled. Requests are values compared by their fields. `remove` still deletes the picked object, because no earlier request equals the pick (`Schedulers.PickIsFirstOccurrence`).
- Python's `sorted` (Timsort) is modelled by a stable insertion sort. Any stable sort by block number gives the same sequence.
- The subclasses `FCFSScheduler`, `SSTFScheduler` and `CLOOKScheduler` are one class, `IOScheduler`, that carries all three policy methods. Each subclass only adds one method, and nothing in the core relies on the split.
