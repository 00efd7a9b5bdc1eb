/** The facade callers submit work to: it issues job ids and hands the jobs
    to the pool. */
module Schedulers {
  import opened Base
  import opened Jobs
  import opened Metrics
  import opened Pools

  class Scheduler {
    const stats: Stats
    const pool: Pool
    /** The id given to the most recently submitted job; 0 before the first. */
    var taskIdCtr: nat

    /** The pool records into this scheduler's statistics, no job is lost,
        and the ids of the submitted jobs run 1, 2, 3, ... up to the counter,
        in submission order. */
    ghost predicate Valid()
      reads this, pool
    {
      && pool.stats == stats
      && pool.Valid()
      && |pool.submitted| == taskIdCtr
      && (forall i :: 0 <= i < |pool.submitted| ==> pool.submitted[i].id == i + 1)
    }

    constructor (nThreads: nat)
      ensures Valid() && fresh(stats) && fresh(pool)
      ensures taskIdCtr == 0 && pool.nThreads == nThreads
      ensures pool.queue == [] && !pool.runFlag && !pool.paused && !pool.stopFlag
      ensures stats.doneJobs == [] && stats.cpu == [] && stats.cpuT == []
    {
      var st := new Stats();
      stats := st;
      pool := new Pool(nThreads, st);
      taskIdCtr := 0;
    }

    /** Submits a work item at a priority level: takes the next id, builds a
        job with it stamped with the current time, enqueues the job and
        returns the id. */
    method Sched(work: Work, prio: Prio, clock: Clock) returns (id: nat)
      requires Valid()
      modifies this, pool
      ensures Valid()
      ensures id == old(taskIdCtr) + 1 && taskIdCtr == id
      ensures |pool.queue| == |old(pool.queue)| + 1
      ensures pool.queue[..|old(pool.queue)|] == old(pool.queue)
      ensures var j := pool.queue[|old(pool.queue)|];
        && fresh(j) && j.id == id && j.prio == prio && j.work == work
        && j.tCreate == clock.now && j.tStart == None && j.tEnd == None
      ensures pool.runFlag == old(pool.runFlag) && pool.paused == old(pool.paused)
      ensures pool.stopFlag == old(pool.stopFlag) && pool.dispatched == old(pool.dispatched)
      ensures pool.threads == old(pool.threads) && pool.cpuMonStarted == old(pool.cpuMonStarted)
      ensures pool.submitted == old(pool.submitted) + [pool.queue[|old(pool.queue)|]]
      ensures old(pool.Timely(clock)) ==> pool.Timely(clock)
    {
      taskIdCtr := taskIdCtr + 1;
      id := taskIdCtr;
      var job := new Job(id, prio, work, clock);
      pool.AddJob(job);
    }
  }

  /** Ids are issued in strictly increasing order, starting from 1, so no
      two submitted jobs share an id. */
  lemma IdsIncrease(s: Scheduler)
    requires s.Valid()
    ensures forall i, k :: 0 <= i < k < |s.pool.submitted| ==>
      1 <= s.pool.submitted[i].id < s.pool.submitted[k].id <= s.taskIdCtr
  {
  }
}

/** Small runs of the sequential model, checked against what the scheduler
    promises its callers. */
module Scenarios {
  import opened Base
  import opened Jobs
  import opened Pools
  import opened Schedulers

  /** A new scheduler, not yet started, holding one job at each level,
      submitted low first and high last, one tick apart. */
  method QueueLowMedHigh(clock: Clock) returns (s: Scheduler)
    modifies clock
    ensures fresh(s) && fresh(s.pool) && fresh(s.stats) && s.Valid()
    ensures |s.pool.queue| == 3 && !s.pool.paused && !s.pool.stopFlag
    ensures forall i :: 0 <= i < 3 ==> fresh(s.pool.queue[i])
    ensures s.pool.Timely(clock)
    ensures s.pool.queue[0].prio == Lo && s.pool.queue[1].prio == Med && s.pool.queue[2].prio == Hi
  {
    s := new Scheduler(2);
    var work := Work(Ok("done"), 1);
    assert s.pool.Timely(clock);
    var id1 := s.Sched(work, Lo, clock);
    TickOn(s.pool, clock);
    var id2 := s.Sched(work, Med, clock);
    TickOn(s.pool, clock);
    var id3 := s.Sched(work, Hi, clock);
  }

  /** A started scheduler holding one job at each level, submitted low
      first and high last, before any worker has stepped. */
  method SubmitLowMedHigh(clock: Clock) returns (s: Scheduler)
    modifies clock
    ensures fresh(s) && fresh(s.pool) && fresh(s.stats) && s.Valid()
    ensures |s.pool.queue| == 3 && !s.pool.paused && !s.pool.stopFlag
    ensures forall i :: 0 <= i < 3 ==> fresh(s.pool.queue[i])
    ensures s.pool.Timely(clock)
    ensures s.pool.queue[0].prio == Lo && s.pool.queue[1].prio == Med && s.pool.queue[2].prio == Hi
  {
    s := QueueLowMedHigh(clock);
    s.pool.Start();
  }

  /** Lets one tick pass; the pool's timing invariant survives it. */
  method TickOn(pool: Pool, clock: Clock)
    requires pool.Timely(clock)
    modifies clock
    ensures clock.now == old(clock.now) + 1
    ensures pool.Timely(clock)
  {
    ghost var now0 := clock.now;
    clock.Advance(1);
    WaitingLater(pool.queue, now0, clock.now);
  }

  /** With the last queued job ahead of every other one, a step of a running
      pool takes and runs that job and leaves the rest queued. */
  method RunNext(pool: Pool, clock: Clock) returns (p: Prio)
    requires pool.Valid() && pool.Timely(clock) && !pool.paused && !pool.stopFlag && pool.queue != []
    requires forall i :: 0 <= i < |pool.queue| - 1 ==>
      pool.queue[|pool.queue| - 1].Precedes(pool.queue[i])
    modifies pool, pool.stats, clock, pool.queue
    ensures pool.Valid() && pool.Timely(clock) && !pool.paused && !pool.stopFlag
    ensures var j := old(pool.queue)[|old(pool.queue)| - 1];
      && p == j.prio
      && j.tStart == Some(old(clock.now)) && j.tEnd == Some(clock.now)
    ensures pool.queue == old(pool.queue)[..|old(pool.queue)| - 1]
  {
    var q := pool.queue;
    var r := pool.Step(clock);
    var k :| 0 <= k < |q| && r.job == q[k] && pool.queue == q[..k] + q[k + 1..];
    p := r.job.prio;
  }

  /** Jobs submitted at the low, then medium, then high level are run high
      first, then medium, then low. */
  method PriorityOrder() returns (order: seq<Prio>)
    ensures order == [Hi, Med, Lo]
  {
    var clock := new Clock(1);
    var s := SubmitLowMedHigh(clock);
    var pool := s.pool;
    var first := RunNext(pool, clock);
    var second := RunNext(pool, clock);
    var third := RunNext(pool, clock);
    order := [first, second, third];
  }

  /** A job submitted while the pool is paused is not taken until the pool
      is resumed; then it is run and its timing is recorded. */
  method PauseHoldsJobs() returns (whilePaused: StepResult, afterResume: StepResult)
    ensures whilePaused == Idle
    ensures afterResume.Ran? && afterResume.job.id == 1
    ensures afterResume.job.tStart.Some? && afterResume.job.tEnd.Some?
  {
    var clock := new Clock(1);
    var s := new Scheduler(1);
    s.pool.Start();
    s.pool.Pause();
    var id := s.Sched(Work(Ok("done"), 3), Med, clock);
    whilePaused := s.pool.Step(clock);
    s.pool.Resume();
    afterResume := s.pool.Step(clock);
  }
}
