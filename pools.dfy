/** The worker pool as a sequential state machine: the ready queue, the
    run/pause/stop flags and one iteration of a worker's loop. */
module Pools {
  import opened Base
  import opened Jobs
  import opened Metrics

  /** The position of a job that no other queued job precedes: the element a
      pop from the priority queue hands out. */
  function MinIndex(q: seq<Job>): (k: nat)
    requires q != []
    ensures k < |q|
    ensures forall i :: 0 <= i < |q| ==> !q[i].Precedes(q[k])
  {
    if |q| == 1 then 0
    else
      var k' := MinIndex(q[1..]) + 1;
      if q[0].Precedes(q[k']) then 0 else k'
  }

  /** The queue with the job at position `k` taken out and the others left
      in order. */
  function RemoveAt(q: seq<Job>, k: nat): (r: seq<Job>)
    requires k < |q|
    ensures |r| == |q| - 1
    ensures forall i :: 0 <= i < k ==> r[i] == q[i]
    ensures forall i :: k <= i < |r| ==> r[i] == q[i + 1]
    ensures multiset(r) + multiset{q[k]} == multiset(q)
  {
    assert q == q[..k] + [q[k]] + q[k + 1..];
    q[..k] + q[k + 1..]
  }

  /** A job that no queued job precedes comes from the best level present,
      and is the earliest created within that level. */
  lemma LeastIsBestTier(q: seq<Job>, k: nat)
    requires k < |q|
    requires forall i :: 0 <= i < |q| ==> !q[i].Precedes(q[k])
    ensures forall i :: 0 <= i < |q| ==> q[k].prio.Value() <= q[i].prio.Value()
    ensures forall i :: 0 <= i < |q| && q[i].prio == q[k].prio ==> q[k].tCreate <= q[i].tCreate
  {
  }

  /** Queued jobs are distinct, not yet started and created no later than
      `now`. */
  ghost predicate Waiting(q: seq<Job>, now: int)
    reads q
  {
    && (forall i :: 0 <= i < |q| ==> q[i].tStart.None? && q[i].tEnd.None? && q[i].tCreate <= now)
    && (forall i, k :: 0 <= i < k < |q| ==> q[i] != q[k])
  }

  /** Recorded jobs have run, with created <= started <= ended. */
  ghost predicate Finished(d: seq<Job>)
    reads d
  {
    forall i :: 0 <= i < |d| ==> d[i].tEnd.Some? && d[i].Ordered()
  }

  /** Taking one job out of a waiting queue leaves a waiting queue without
      that job, and no waiting job is among the finished ones. */
  lemma WaitingAfterTake(q: seq<Job>, k: nat, now: int, d: seq<Job>)
    requires k < |q| && Waiting(q, now) && Finished(d)
    ensures Waiting(q[..k] + q[k + 1..], now)
    ensures q[k] !in q[..k] + q[k + 1..]
    ensures q[k] !in d
  {
    var r := q[..k] + q[k + 1..];
    assert forall i :: 0 <= i < |r| ==> r[i] == (if i < k then q[i] else q[i + 1]);
  }

  /** A waiting queue still waits once the clock has moved on. */
  lemma WaitingLater(q: seq<Job>, now: int, later: int)
    requires Waiting(q, now) && now <= later
    ensures Waiting(q, later)
  {
  }

  /** In every state the timing invariant holds, neither average time in the
      pool's summary is negative. */
  lemma AveragesNonNegativeWhenTimely(p: Pool, clock: Clock, now: Tick)
    requires p.Timely(clock)
    ensures p.stats.GetStats(now).avgWaitTime >= 0.0
    ensures p.stats.GetStats(now).avgExecutionTime >= 0.0
  {
    AveragesNonNegative(p.stats, now);
  }

  /** What one iteration of a worker's loop did. */
  datatype StepResult =
    | Exited                          // the stop flag was set: the worker leaves its loop
    | Idle                            // paused, or nothing queued: the worker waits
    | Ran(job: Job, outcome: Outcome) // a job was taken and run

  class Pool {
    const nThreads: nat
    const stats: Stats
    var queue: seq<Job>
    var runFlag: bool
    var paused: bool
    var stopFlag: bool
    /** The workers started so far, by index. */
    var threads: seq<nat>
    var cpuMonStarted: bool
    /** Every job ever added, and every job a worker has taken, in order. */
    ghost var submitted: seq<Job>
    ghost var dispatched: seq<Job>

    /** No job is lost: each added job is either still queued or was taken
        by a worker. */
    ghost predicate Valid()
      reads this
    {
      multiset(submitted) == multiset(queue) + multiset(dispatched)
    }

    /** The timing invariant against `clock`: every queued job is distinct,
        not yet started and created no later than now, and every recorded
        job has run, with created <= started <= ended. */
    ghost predicate Timely(clock: Clock)
      reads this, queue, stats, stats.doneJobs, clock
    {
      Waiting(queue, clock.now) && Finished(stats.doneJobs)
    }

    constructor (nThreads: nat, stats: Stats)
      ensures Valid()
      ensures this.nThreads == nThreads && this.stats == stats
      ensures queue == [] && !runFlag && !paused && !stopFlag
      ensures threads == [] && !cpuMonStarted
      ensures submitted == [] && dispatched == []
    {
      this.nThreads := nThreads;
      this.stats := stats;
      queue := [];
      runFlag, paused, stopFlag := false, false, false;
      threads := [];
      cpuMonStarted := false;
      submitted, dispatched := [], [];
    }

    /** Sets the run flag, clears the stop flag and starts `nThreads` workers
        and the CPU sampler. */
    method Start()
      requires Valid()
      modifies this
      ensures Valid()
      ensures runFlag && !stopFlag && paused == old(paused) && cpuMonStarted
      ensures threads == old(threads) + seq(nThreads, i => i)
      ensures queue == old(queue) && submitted == old(submitted) && dispatched == old(dispatched)
    {
      runFlag := true;
      stopFlag := false;
      for i := 0 to nThreads
        invariant threads == old(threads) + seq(i, k => k)
        invariant runFlag && !stopFlag && paused == old(paused)
        invariant queue == old(queue) && submitted == old(submitted) && dispatched == old(dispatched)
      {
        threads := threads + [i];
      }
      cpuMonStarted := true;
    }

    /** Adds a job to the ready queue; this never blocks and never rejects. */
    method AddJob(job: Job)
      requires Valid()
      modifies this
      ensures Valid()
      ensures queue == old(queue) + [job]
      ensures submitted == old(submitted) + [job] && dispatched == old(dispatched)
      ensures runFlag == old(runFlag) && paused == old(paused) && stopFlag == old(stopFlag)
      ensures threads == old(threads) && cpuMonStarted == old(cpuMonStarted)
    {
      queue := queue + [job];
      submitted := submitted + [job];
    }

    /** Sets the pause flag; workers stop taking jobs. */
    method Pause()
      requires Valid()
      modifies this
      ensures Valid()
      ensures paused
      ensures runFlag == old(runFlag) && stopFlag == old(stopFlag)
      ensures queue == old(queue) && submitted == old(submitted) && dispatched == old(dispatched)
      ensures threads == old(threads) && cpuMonStarted == old(cpuMonStarted)
    {
      paused := true;
    }

    /** Clears the pause flag; workers take jobs again. */
    method Resume()
      requires Valid()
      modifies this
      ensures Valid()
      ensures !paused
      ensures runFlag == old(runFlag) && stopFlag == old(stopFlag)
      ensures queue == old(queue) && submitted == old(submitted) && dispatched == old(dispatched)
      ensures threads == old(threads) && cpuMonStarted == old(cpuMonStarted)
    {
      paused := false;
    }

    /** Sets the stop flag; every worker leaves its loop at its next check. */
    method Stop()
      requires Valid()
      modifies this
      ensures Valid()
      ensures stopFlag
      ensures runFlag == old(runFlag) && paused == old(paused)
      ensures queue == old(queue) && submitted == old(submitted) && dispatched == old(dispatched)
      ensures threads == old(threads) && cpuMonStarted == old(cpuMonStarted)
    {
      stopFlag := true;
    }

    /** Takes a job that no other queued job precedes out of the ready queue,
        leaving the others in order. */
    method Take() returns (job: Job, ghost k: nat)
      requires Valid() && queue != []
      modifies this
      ensures Valid()
      ensures k < |old(queue)| && job == old(queue)[k]
      ensures queue == old(queue)[..k] + old(queue)[k + 1..]
      ensures forall i :: 0 <= i < |old(queue)| ==> !old(queue)[i].Precedes(job)
      ensures dispatched == old(dispatched) + [job] && submitted == old(submitted)
      ensures runFlag == old(runFlag) && paused == old(paused) && stopFlag == old(stopFlag)
      ensures threads == old(threads) && cpuMonStarted == old(cpuMonStarted)
    {
      var m := MinIndex(queue);
      k := m;
      job := queue[m];
      queue := RemoveAt(queue, m);
      assert queue == old(queue)[..m] + old(queue)[m + 1..];
      dispatched := dispatched + [job];
    }

    /** Takes a job that no other queued job precedes, runs it outside the
        lock and, if the work succeeded, records it in the statistics. */
    method Dispatch(clock: Clock) returns (job: Job, outcome: Outcome, ghost k: nat)
      requires Valid() && queue != []
      modifies this, stats, clock, queue
      ensures Valid()
      ensures runFlag == old(runFlag) && paused == old(paused) && stopFlag == old(stopFlag)
      ensures threads == old(threads) && cpuMonStarted == old(cpuMonStarted)
      ensures submitted == old(submitted) && dispatched == old(dispatched) + [job]
      ensures stats.cpu == old(stats.cpu) && stats.cpuT == old(stats.cpuT)
      ensures old(Timely(clock)) ==> Timely(clock)
      ensures k < |old(queue)| && job == old(queue)[k]
      ensures queue == old(queue)[..k] + old(queue)[k + 1..]
      ensures forall i :: 0 <= i < |old(queue)| ==> !old(queue)[i].Precedes(job)
      ensures forall j :: j in old(queue) && j != job ==> j.tStart == old(j.tStart) && j.tEnd == old(j.tEnd)
      ensures outcome == job.work.outcome
      ensures job.tStart == Some(old(clock.now)) && job.tEnd == Some(clock.now)
      ensures clock.now == old(clock.now) + job.work.duration
      ensures stats.doneJobs == old(stats.doneJobs) + (if outcome.Ok? then [job] else [])
    {
      ghost var wasTimely := Timely(clock);
      ghost var q0, done0, now0 := queue, stats.doneJobs, clock.now;
      job, k := Take();
      if wasTimely {
        WaitingAfterTake(q0, k, now0, done0);
      }
      outcome := job.Run(clock);
      if wasTimely {
        WaitingLater(queue, now0, clock.now);
      }
      if outcome.Ok? {
        stats.AddJob(job);
      }
    }

    /** One iteration of a worker's loop. With the stop flag set the worker
        leaves; paused or with nothing queued it waits; otherwise it takes a
        job that no other queued job precedes, runs it outside the lock and,
        if the work succeeded, records it in the statistics. A failed job is
        dropped from the statistics and the worker carries on. */
    method Step(clock: Clock) returns (res: StepResult)
      requires Valid()
      modifies this, stats, clock, queue
      ensures Valid()
      ensures runFlag == old(runFlag) && paused == old(paused) && stopFlag == old(stopFlag)
      ensures threads == old(threads) && cpuMonStarted == old(cpuMonStarted)
      ensures submitted == old(submitted)
      ensures stats.cpu == old(stats.cpu) && stats.cpuT == old(stats.cpuT)
      ensures old(Timely(clock)) ==> Timely(clock)
      ensures old(stopFlag) ==> res == Exited
      ensures !old(stopFlag) && (old(paused) || old(queue) == []) ==> res == Idle
      ensures forall j :: j in old(queue) && (!res.Ran? || j != res.job) ==>
        j.tStart == old(j.tStart) && j.tEnd == old(j.tEnd)
      ensures !res.Ran? ==>
        && queue == old(queue) && dispatched == old(dispatched)
        && stats.doneJobs == old(stats.doneJobs) && clock.now == old(clock.now)
      ensures !old(stopFlag) && !old(paused) && old(queue) != [] ==>
        && res.Ran?
        && (exists k :: 0 <= k < |old(queue)| && res.job == old(queue)[k]
                        && queue == old(queue)[..k] + old(queue)[k + 1..])
        && (forall i :: 0 <= i < |old(queue)| ==> !old(queue)[i].Precedes(res.job))
        && dispatched == old(dispatched) + [res.job]
        && res.outcome == res.job.work.outcome
        && res.job.tStart == Some(old(clock.now)) && res.job.tEnd == Some(clock.now)
        && clock.now == old(clock.now) + res.job.work.duration
        && stats.doneJobs == old(stats.doneJobs) + (if res.outcome.Ok? then [res.job] else [])
    {
      if stopFlag {
        return Exited;
      }
      if paused || queue == [] {
        return Idle;
      }
      var job, outcome, k := Dispatch(clock);
      res := Ran(job, outcome);
    }
  }
}
