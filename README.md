# Priority task scheduler: a sequential Dafny model

This project models the scheduling engine of a priority-aware worker pool
(`task_scheduler.py`). Callers submit work items at one of three priority
levels (`hi` = 1, `med` = 2, `lo` = 3). A pool of workers takes jobs from a
ready queue: the lowest priority value goes first, and the earliest creation
time goes first within a level. Each job's start and end times are recorded,
and a statistics collector summarises completed jobs and CPU samples.

The threaded pool is modelled as a sequential state machine. Every pool
operation is one atomic step, and one iteration of a worker's loop is the
method `Pool.Step`. Thread coordination is not modelled.

Modules, one per component of the source:

- `Base` (base.dfy): `Option`, the work item's `Outcome` (`Ok(value)` or
  `Err(error)`), `Work` (an outcome plus the number of ticks the call takes),
  positive integer clock `Tick`s, and a `Clock` class that only moves forward.
  `time.time()` is replaced by reads of that clock.
- `Jobs` (jobs.dfy): the `Prio` levels and the `Job` class. The id, level,
  work item and creation time are constants. The start and end times are
  fields that `Run` assigns.
- `Metrics` (metrics.dfy): the `Stats` class with its three append-only
  lists, the summary (`GetStats`), and the per-job export record (`Row`,
  `ToCsv`).
- `Pools` (pools.dfy): the `Pool` class. It holds the ready queue (a
  sequence with pop-min), the `run_flag`, `paused` and `stop_flag` flags,
  and the started workers. Two ghost logs (`submitted`, `dispatched`) carry
  the no-loss invariant `Valid`: every added job is either still queued or
  was taken by a worker. The timing invariant `Timely(clock)` says that
  queued jobs are distinct, not yet started and created no later than now,
  and that every recorded job has run with created <= started <= ended.
  `Step` and `Sched` preserve it. The flag operations and `AddCpu` leave
  the queue and the recorded jobs alone, so they preserve it too. A new
  pool satisfies it, so it holds in every reachable state, and there
  neither average time is negative (`AveragesNonNegativeWhenTimely`).
- `Schedulers` (scheduler.dfy): the `Scheduler` facade, which issues ids.
  The module `Scenarios` in the same file holds two small client runs based
  on the demo driver.

Python truthiness is modelled literally (`Truthy`: present and non-zero).
Clock readings are positive, so a timestamp is truthy exactly when it is
set. A wait or execution time of 0 is falsy, so the summary leaves it out of
the averages, just as the source does.

Behaviour of the code that the model keeps as written:

- A worker leaves its loop as soon as it sees the stop flag, even when jobs
  are still queued (`task_scheduler.py:173`), so queued jobs are not
  drained. The `Step` contract states exactly this.
- Calling `run` twice is not guarded in the code, so `Job.Run` has no
  precondition against it.
- `run_flag` is set by `start` but never read anywhere.
- A failed job is not recorded in the statistics: `run` re-raises before
  `add_job` is reached.
- The summary of an empty collector has `avg_cpu_usage` 0 even when CPU
  samples exist, and it has no priority breakdown.
- The export writes the level's member name (`hi`, `med`, `lo`), while the
  breakdown uses the keys HIGH, MEDIUM and LOW.
- In `get_stats`, the branch that sets throughput to 0 when the job list is
  empty (`task_scheduler.py:95-96`) can never run, because an empty list has
  already returned. The model has no such branch.

## Model

| member | source | states |
|---|---|---|
| `Jobs.Prio.Value` | task_scheduler.py:13-16 | every level's integer value lies between 1 and 3 |
| `Jobs.ValuesAscend` | task_scheduler.py:13-16 | the values ascend from hi to med to lo, so hi is served first |
| `Jobs.Job.constructor` | task_scheduler.py:18-30 | a new job carries the given id, level and work item, is stamped with the current clock reading, and has no start or end time |
| `Jobs.Job.Precedes` | task_scheduler.py:32-36 | a smaller level value always goes first and a larger one never does, whatever the creation times; within one level, a job goes first exactly when it was created earlier |
| `Jobs.PrecedesIsStrict` | task_scheduler.py:32-36 | the queue order is irreflexive, asymmetric and transitive |
| `Jobs.UnorderedIsTie` | task_scheduler.py:32-36 | two jobs are unordered exactly when they have the same level and the same creation time |
| `Jobs.Job.Run` | task_scheduler.py:38-46 | records the start time at the current reading and the end time after the work's duration, on success and on failure alike; the result is exactly the work's outcome, so a failure is handed on only after the end time is set; if the job was created no later than the start, created <= started <= ended afterwards |
| `Jobs.Job.WaitTime` | task_scheduler.py:48-51 | absent exactly while no start time is recorded; otherwise start = created + wait; not negative when the timestamps are in order |
| `Jobs.Job.RunTime` | task_scheduler.py:53-56 | absent exactly when the start time or the end time is missing; otherwise end = start + execution time; not negative when the timestamps are in order |
| `Metrics.Present` | task_scheduler.py:84-87 | the filter applied to wait and execution times: the result is no longer than the input, holds no zero, and contains every truthy value of the input |
| `Metrics.PresentFrom` | task_scheduler.py:84-87 | every value the filter keeps comes from the input list |
| `Metrics.PresentSnoc` | task_scheduler.py:84-87 | filtering a list extended by one element extends the filtered list by that element exactly when it is truthy, so the order is kept |
| `Metrics.PresentCounts` | task_scheduler.py:84-87 | the filter keeps each value exactly as often as truthy positions hold it |
| `Metrics.PresentTotals` | task_scheduler.py:84-87 | the filtered list has one entry per truthy position, and its sum is the sum of the truthy values |
| `Metrics.Count` | task_scheduler.py:100-104 | the count of jobs at one level is at most the number of jobs |
| `Metrics.CountIsLevelSize` | task_scheduler.py:100-104 | the count of a level is exactly the number of positions holding a job at that level |
| `Metrics.CountSnoc` | task_scheduler.py:67-69 | recording one more job raises the count of its level by one and leaves the other levels' counts unchanged |
| `Metrics.CountsPartition` | task_scheduler.py:100-104 | the HIGH, MEDIUM and LOW counts add up to the number of completed jobs |
| `Metrics.MeanScaled` | task_scheduler.py:85 | a mean times the number of values is their sum |
| `Metrics.MeanRealScaled` | task_scheduler.py:98 | the mean of the CPU samples times their number is their sum |
| `Metrics.MeanBetween` | task_scheduler.py:85 | the mean of a non-empty list lies between any lower and upper bound of its elements |
| `Metrics.MeanAtLeast` | task_scheduler.py:85 | a lower bound on every element is a lower bound on the mean |
| `Metrics.MeanAtMost` | task_scheduler.py:85 | an upper bound on every element is an upper bound on the mean |
| `Metrics.Span` | task_scheduler.py:91-93 | the measured span runs from the first-recorded job's creation to the last-recorded job's end, or to `now` when that job has no end time |
| `Metrics.Throughput` | task_scheduler.py:94 | with a positive span, throughput times span is the number of jobs; otherwise throughput is 0 |
| `Metrics.Row` | task_scheduler.py:119-130 | a record has the 7 header columns. Id, level name and creation time are always there. The wait and execution times are there, as their values, exactly when they are truthy. The start and end times are there, as their stamps, exactly when they are set. Every other cell is NA |
| `Metrics.Stats.constructor` | task_scheduler.py:61-65 | a new collector has no jobs and no samples |
| `Metrics.Stats.AddJob` | task_scheduler.py:67-69 | appends the job to the completed list and leaves the samples alone |
| `Metrics.Stats.AddCpu` | task_scheduler.py:71-74 | appends the sample and the current clock reading to the two sample lists, and leaves the jobs alone |
| `Metrics.Stats.GetStats` | task_scheduler.py:76-113 | empty collector: every figure 0 and no breakdown. Otherwise: total = number of jobs; breakdown = per-level counts, which add up to the total; averages over the truthy wait and execution times; throughput over the measured span; mean CPU usage |
| `Metrics.MeanOfTruthy` | task_scheduler.py:84-88 | the mean of the filtered list is the sum of the truthy values, taken position by position, divided by the number of truthy positions, and 0 when there are none |
| `Metrics.AvgWaitIsMeanOfTruthy` | task_scheduler.py:84-85 | with k completed jobs whose wait time is truthy, the average wait is 0 when k is 0, and otherwise those jobs' total wait divided by k |
| `Metrics.AvgExecIsMeanOfTruthy` | task_scheduler.py:87-88 | with k completed jobs whose execution time is truthy, the average execution time is 0 when k is 0, and otherwise their total execution time divided by k |
| `Metrics.BreakdownCountsLevels` | task_scheduler.py:100-104 | each figure in the breakdown is the number of completed jobs at that level |
| `Metrics.AvgCpuIsMean` | task_scheduler.py:98 | the average CPU usage is the mean of all samples, and 0 without samples |
| `Metrics.AveragesNonNegative` | task_scheduler.py:84-88 | when every recorded job's timestamps are in order, neither average is negative |
| `Pools.WaitingAfterTake` | task_scheduler.py:183-185 | taking one job out of a queue of distinct unstarted jobs leaves such a queue without that job, and the taken job is not among the recorded ones |
| `Pools.WaitingLater` | task_scheduler.py:183-185 | queued jobs created no later than one reading are created no later than any later one |
| `Pools.AveragesNonNegativeWhenTimely` | task_scheduler.py:84-88 | in every state where the pool's timing invariant holds, neither average time in the summary is negative |
| `Metrics.Stats.ToCsv` | task_scheduler.py:115-130 | the table is the 7-column header plus one record per completed job, in completion order |
| `Pools.MinIndex` | task_scheduler.py:183-185 | the popped position is in range, and no queued job precedes the job there |
| `Pools.RemoveAt` | task_scheduler.py:185 | removing one position keeps the other jobs in order, and the removed job plus the rest is the old queue as a multiset |
| `Pools.LeastIsBestTier` | task_scheduler.py:32-36 | a job that no queued job precedes has the best level present, and is the earliest-created job of that level |
| `Pools.Pool.constructor` | task_scheduler.py:140-153 | a new pool has an empty queue, all flags cleared and no workers |
| `Pools.Pool.Start` | task_scheduler.py:155-167 | sets `run_flag`, clears `stop_flag`, appends worker indices 0 to n-1 and starts the sampler; the queue and `paused` are untouched |
| `Pools.Pool.AddJob` | task_scheduler.py:211-214 | never rejects; the queue grows by exactly that job, and the flags are untouched |
| `Pools.Pool.Pause` | task_scheduler.py:216-219 | sets `paused`; the other flags and the queue are untouched |
| `Pools.Pool.Resume` | task_scheduler.py:221-225 | clears `paused`; the other flags and the queue are untouched |
| `Pools.Pool.Stop` | task_scheduler.py:227-232 | sets `stop_flag`; the other flags and the queue are untouched |
| `Pools.Pool.Take` | task_scheduler.py:183-185 | removes exactly one job that no other queued job precedes, and the rest stay in order |
| `Pools.Pool.Dispatch` | task_scheduler.py:183-199 | takes a job that no queued job precedes and runs it, setting both timestamps. It records the job in the statistics exactly when the work succeeded and keeps the CPU samples. It preserves the no-loss and timing invariants and leaves the other queued jobs untouched |
| `Pools.Pool.Step` | task_scheduler.py:171-199 | with `stop_flag` set the worker exits. When paused or with an empty queue it takes nothing and changes nothing. Otherwise it behaves as `Dispatch`. No job is lost, the timing invariant is kept, and the flags, workers and CPU samples never change |
| `Schedulers.Scheduler.constructor` | task_scheduler.py:248-252 | a new scheduler has counter 0, a fresh pool that shares its fresh statistics, an empty queue and all flags cleared |
| `Schedulers.Scheduler.Sched` | task_scheduler.py:257-273 | increments the counter and returns its new value. It enqueues and logs one fresh job with that id, the given level and work, stamped with the current time. The submitted ids stay 1, 2, 3, ..., and the flags, workers and sampler are unchanged. The timing invariant is kept |
| `Schedulers.IdsIncrease` | task_scheduler.py:251-261 | the ids of the submitted jobs strictly increase, are at least 1 and at most the counter, so no two are equal |
| `Scenarios.QueueLowMedHigh` | main.py:145-155 | submitting low, then medium, then high, one tick apart, leaves three jobs queued in that order, with the timing invariant in force |
| `Scenarios.SubmitLowMedHigh` | main.py:145-155 | the same three jobs queued in a started, unpaused pool before any worker steps |
| `Scenarios.RunNext` | task_scheduler.py:171-199 | when the last queued job goes ahead of every other one, a step of a running pool runs exactly that job (both timestamps set) and leaves the others queued in order |
| `Scenarios.PriorityOrder` | main.py:145-158 | jobs submitted low, medium, high are run high, medium, low |
| `Scenarios.PauseHoldsJobs` | main.py:112-129 | a job submitted while paused is not taken; after resuming it is taken and gets both timestamps |

## Left out

- Threads, the condition variable with its 0.1-second poll, `notify` and
  `notify_all`: the model runs one atomic step at a time. The
  `queue.Empty` race in `_loop` (another worker took the job first) cannot
  happen in this model.
- `q.task_done`, `q.join` and the `Thread.join` timeouts in `stop`: they
  only wait for other threads. `Pool.Stop` therefore has no `wait`
  parameter and sets only the stop flag. Reading the code (not running it)
  reveals a consequence: workers quit at the stop flag while jobs are
  still queued (`task_scheduler.py:173`), so those jobs never reach
  `task_done` (`task_scheduler.py:199`). `stop(wait=True)` would then block
  forever in `q.join()` (`task_scheduler.py:235`).
- `_mon_cpu` and its `psutil` sampling: a foreign call that also sleeps.
  `Stats.AddCpu` takes the sample as an opaque real number.
- The file I/O of `to_csv` and `to_json`, `csv`/`json` writing, the `:.4f`
  number format and `strftime` timestamps. Instead, a record holds the
  numbers as cells, and the JSON document is `GetStats`'s summary.
- All `print` logging.
- `Scheduler.start`, `pause`, `resume`, `stop`, `get_stats` and `export`:
  each only forwards to the pool or the statistics, whose operations are
  modelled.
- A work item's function, positional arguments and keyword arguments
  become one `Work` value: its outcome and its duration in ticks. `Sched`
  has no default level.
- Floating-point time and arithmetic: timestamps are integer ticks of a
  forward-only clock, and averages and throughput are exact reals.
- The binary-heap layout of `queue.PriorityQueue`: the queue is a sequence
  with pop-min. `Step` and `Take` allow any minimal job, since the heap
  may pop either of two tied jobs. `MinIndex` picks one particular minimal
  job.
- main.py's demo tasks (busy loops, sleeps, random numbers) are not
  modelled. The demo starts the pool before submitting, with pauses between
  the groups, so idle workers may take low jobs as they arrive. The
  priority scenario is the one interleaving in which no worker steps until
  all three jobs are queued, with one job per level instead of three.
