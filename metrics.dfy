/** The statistics collector: completed jobs and CPU samples, their summary
    and the per-job record layout of the export. */
module Metrics {
  import opened Base
  import opened Jobs

  /** Completed-job counts per priority level. */
  datatype Breakdown = Breakdown(high: nat, medium: nat, low: nat)

  /** The summary document. An empty collector's summary has no breakdown. */
  datatype Summary = Summary(
    totalTasks: nat,
    avgWaitTime: real,
    avgExecutionTime: real,
    throughput: real,
    avgCpuUsage: real,
    priorityBreakdown: Option<Breakdown>)

  /** One cell of an exported per-job record. */
  datatype Cell = Id(n: int) | Name(s: string) | Seconds(d: int) | Stamp(t: int) | NA

  /** The column names of the per-job record table, in order. */
  const Header: seq<string> := ["Task_ID", "Priority", "Wait_Time", "Execution_Time", "Created", "Started", "Ended"]

  function Sum(xs: seq<int>): int
  {
    if xs == [] then 0 else xs[0] + Sum(xs[1..])
  }

  function SumReal(xs: seq<real>): real
  {
    if xs == [] then 0.0 else xs[0] + SumReal(xs[1..])
  }

  /** The mean of a list of numbers, and 0 for the empty list. */
  function Mean(xs: seq<int>): real
  {
    if xs == [] then 0.0 else Sum(xs) as real / |xs| as real
  }

  /** The mean of a list of CPU samples, and 0 for the empty list. */
  function MeanReal(xs: seq<real>): real
  {
    if xs == [] then 0.0 else SumReal(xs) / |xs| as real
  }

  /** A mean times the number of values is their sum. */
  lemma MeanScaled(xs: seq<int>, m: real)
    requires xs != [] && m == Mean(xs)
    ensures m * |xs| as real == Sum(xs) as real
  {
  }

  /** A mean of samples times their number is their sum. */
  lemma MeanRealScaled(xs: seq<real>)
    requires xs != []
    ensures MeanReal(xs) * |xs| as real == SumReal(xs)
  {
  }

  /** The truthy values of a list of optional numbers, in order: absent
      values and zeros are dropped. */
  function Present(xs: seq<Option<int>>): (ys: seq<int>)
    ensures |ys| <= |xs|
    ensures forall y :: y in ys ==> y != 0
    ensures forall i :: 0 <= i < |xs| && Truthy(xs[i]) ==> xs[i].value in ys
  {
    if xs == [] then []
    else (if Truthy(xs[0]) then [xs[0].value] else []) + Present(xs[1..])
  }

  /** Every value Present keeps comes from the input list. */
  lemma {:induction false} PresentFrom(xs: seq<Option<int>>, y: int)
    requires y in Present(xs)
    ensures Some(y) in xs
  {
    if Truthy(xs[0]) && y == xs[0].value {
      assert xs[0] == Some(y);
    } else {
      assert y in Present(xs[1..]);
      PresentFrom(xs[1..], y);
      assert forall z :: z in xs[1..] ==> z in xs;
    }
  }

  /** The positions of `xs` holding a truthy value. */
  function TruthyIndices(xs: seq<Option<int>>): set<int>
  {
    set i | 0 <= i < |xs| && Truthy(xs[i])
  }

  /** The positions of `xs` holding the truthy value `y`. */
  function TruthyIndicesOf(xs: seq<Option<int>>, y: int): set<int>
  {
    set i | 0 <= i < |xs| && Truthy(xs[i]) && xs[i].value == y
  }

  /** The sum of the truthy values of `xs`, taken position by position from
      the end, without building the filtered list. */
  function TruthyTotal(xs: seq<Option<int>>): int
  {
    if xs == [] then 0
    else TruthyTotal(xs[..|xs| - 1]) + (if Truthy(xs[|xs| - 1]) then xs[|xs| - 1].value else 0)
  }

  /** Filtering a list extended at the end extends the filtered list by the
      new value when it is truthy. */
  lemma {:induction false} PresentSnoc(xs: seq<Option<int>>, x: Option<int>)
    ensures Present(xs + [x]) == Present(xs) + (if Truthy(x) then [x.value] else [])
  {
    if xs != [] {
      assert (xs + [x])[1..] == xs[1..] + [x];
      PresentSnoc(xs[1..], x);
    }
  }

  /** The positions of a list extended at the end: the old positions, and the
      new last one when it qualifies. */
  lemma TruthyIndicesSnoc(xs: seq<Option<int>>, x: Option<int>, y: int)
    ensures TruthyIndices(xs + [x]) == TruthyIndices(xs) + (if Truthy(x) then {|xs|} else {})
    ensures TruthyIndicesOf(xs + [x], y) ==
      TruthyIndicesOf(xs, y) + (if Truthy(x) && x.value == y then {|xs|} else {})
    ensures |xs| !in TruthyIndices(xs) && |xs| !in TruthyIndicesOf(xs, y)
  {
    var ys := xs + [x];
    assert forall i :: 0 <= i < |xs| ==> ys[i] == xs[i];
  }

  /** Present keeps each truthy value exactly as often as it occurs: the
      number of copies of `y` in the result is the number of positions
      holding `y`. Together with the order Present keeps, this fixes the
      averaged values completely. */
  lemma {:induction false} PresentCounts(xs: seq<Option<int>>, y: int)
    ensures multiset(Present(xs))[y] == |TruthyIndicesOf(xs, y)|
  {
    if xs == [] {
      assert TruthyIndicesOf(xs, y) == {};
    } else {
      var init, x := xs[..|xs| - 1], xs[|xs| - 1];
      assert xs == init + [x];
      PresentSnoc(init, x);
      TruthyIndicesSnoc(init, x, y);
      PresentCounts(init, y);
    }
  }

  /** Present keeps one value per truthy position, and their sum is the sum
      of the truthy values. */
  lemma {:induction false} PresentTotals(xs: seq<Option<int>>)
    ensures |Present(xs)| == |TruthyIndices(xs)|
    ensures Sum(Present(xs)) == TruthyTotal(xs)
  {
    if xs == [] {
      assert TruthyIndices(xs) == {};
    } else {
      var init, x := xs[..|xs| - 1], xs[|xs| - 1];
      assert xs == init + [x];
      PresentSnoc(init, x);
      TruthyIndicesSnoc(init, x, 0);
      PresentTotals(init);
      SumConcat(Present(init), if Truthy(x) then [x.value] else []);
    }
  }

  /** The sum of a concatenation is the sum of the parts. */
  lemma {:induction false} SumConcat(xs: seq<int>, ys: seq<int>)
    ensures Sum(xs + ys) == Sum(xs) + Sum(ys)
  {
    if xs == [] {
      assert xs + ys == ys;
    } else {
      var zs := xs + ys;
      assert zs[0] == xs[0] && zs[1..] == xs[1..] + ys;
      SumConcat(xs[1..], ys);
    }
  }

  /** Every job's wait time, in order. */
  function Waits(jobs: seq<Job>): (ws: seq<Option<int>>)
    reads jobs
    ensures |ws| == |jobs|
    ensures forall i :: 0 <= i < |jobs| ==> ws[i] == jobs[i].WaitTime()
  {
    seq(|jobs|, i requires 0 <= i < |jobs| reads jobs => jobs[i].WaitTime())
  }

  /** Every job's execution time, in order. */
  function Runs(jobs: seq<Job>): (rs: seq<Option<int>>)
    reads jobs
    ensures |rs| == |jobs|
    ensures forall i :: 0 <= i < |jobs| ==> rs[i] == jobs[i].RunTime()
  {
    seq(|jobs|, i requires 0 <= i < |jobs| reads jobs => jobs[i].RunTime())
  }

  /** The number of jobs at level `p`. */
  function Count(jobs: seq<Job>, p: Prio): (n: nat)
    ensures n <= |jobs|
  {
    if jobs == [] then 0 else (if jobs[0].prio == p then 1 else 0) + Count(jobs[1..], p)
  }

  /** Every job is at exactly one level, so the three counts add up to the
      number of jobs. */
  lemma {:induction false} CountsPartition(jobs: seq<Job>)
    ensures Count(jobs, Hi) + Count(jobs, Med) + Count(jobs, Lo) == |jobs|
  {
    if jobs != [] {
      CountsPartition(jobs[1..]);
    }
  }

  /** The positions of the jobs at level `p`. */
  function LevelIndices(jobs: seq<Job>, p: Prio): set<int>
  {
    set i | 0 <= i < |jobs| && jobs[i].prio == p
  }

  /** Count is exact: it is the number of positions holding a job at level
      `p`. */
  lemma {:induction false} CountIsLevelSize(jobs: seq<Job>, p: Prio)
    ensures Count(jobs, p) == |LevelIndices(jobs, p)|
  {
    if jobs == [] {
      assert LevelIndices(jobs, p) == {};
    } else {
      var init, j := jobs[..|jobs| - 1], jobs[|jobs| - 1];
      assert jobs == init + [j];
      CountSnoc(init, j, p);
      CountIsLevelSize(init, p);
      LevelIndicesSnoc(init, j, p);
    }
  }

  /** The level positions of a list extended at the end: the old positions,
      and the new last one when the new job is at that level. */
  lemma LevelIndicesSnoc(jobs: seq<Job>, j: Job, p: Prio)
    ensures LevelIndices(jobs + [j], p) == LevelIndices(jobs, p) + (if j.prio == p then {|jobs|} else {})
    ensures |jobs| !in LevelIndices(jobs, p)
  {
    var ks := jobs + [j];
    assert forall i :: 0 <= i < |jobs| ==> ks[i] == jobs[i];
  }

  /** Recording one more job raises its level's count by one and leaves the
      other levels' counts alone. */
  lemma {:induction false} CountSnoc(jobs: seq<Job>, j: Job, p: Prio)
    ensures Count(jobs + [j], p) == Count(jobs, p) + (if j.prio == p then 1 else 0)
  {
    if jobs != [] {
      assert (jobs + [j])[1..] == jobs[1..] + [j];
      CountSnoc(jobs[1..], j, p);
    }
  }

  /** A lower bound on every element bounds the sum. */
  lemma {:induction false} SumAtLeast(xs: seq<int>, lo: int)
    requires forall x :: x in xs ==> lo <= x
    ensures |xs| * lo <= Sum(xs)
  {
    if xs != [] {
      assert forall x :: x in xs[1..] ==> x in xs;
      SumAtLeast(xs[1..], lo);
      assert xs[0] in xs;
      assert Sum(xs) == xs[0] + Sum(xs[1..]);
      assert |xs[1..]| * lo + lo == |xs| * lo;
    }
  }

  /** An upper bound on every element bounds the sum. */
  lemma {:induction false} SumAtMost(xs: seq<int>, hi: int)
    requires forall x :: x in xs ==> x <= hi
    ensures Sum(xs) <= |xs| * hi
  {
    if xs != [] {
      assert forall x :: x in xs[1..] ==> x in xs;
      SumAtMost(xs[1..], hi);
      assert xs[0] in xs;
      assert Sum(xs) == xs[0] + Sum(xs[1..]);
      assert |xs[1..]| * hi + hi == |xs| * hi;
    }
  }

  /** The mean of a non-empty list lies between any bounds of its elements. */
  lemma MeanBetween(xs: seq<int>, lo: int, hi: int)
    requires xs != []
    requires forall x :: x in xs ==> lo <= x <= hi
    ensures lo as real <= Mean(xs) <= hi as real
  {
    MeanAtLeast(xs, lo);
    MeanAtMost(xs, hi);
  }

  /** The mean of values that are all at least `lo` is at least `lo`; the
      mean of the empty list is 0. */
  lemma MeanAtLeast(xs: seq<int>, lo: int)
    requires forall x :: x in xs ==> lo <= x
    ensures xs != [] ==> lo as real <= Mean(xs)
  {
    if xs != [] {
      SumAtLeast(xs, lo);
      var n := |xs| as real;
      assert n * lo as real <= Sum(xs) as real;
      assert Mean(xs) == Sum(xs) as real / n;
      assert (n * lo as real) / n <= Sum(xs) as real / n;
    }
  }

  /** The mean of values that are all at most `hi` is at most `hi`. */
  lemma MeanAtMost(xs: seq<int>, hi: int)
    requires forall x :: x in xs ==> x <= hi
    ensures xs != [] ==> Mean(xs) <= hi as real
  {
    if xs != [] {
      SumAtMost(xs, hi);
      var n := |xs| as real;
      assert Sum(xs) as real <= n * hi as real;
      assert Mean(xs) == Sum(xs) as real / n;
      assert Sum(xs) as real / n <= (n * hi as real) / n;
    }
  }

  /** The time span the throughput is measured over: from the first job's
      creation to the last job's end, or to `now` if the last job has no
      end time. */
  function Span(jobs: seq<Job>, now: Tick): (span: int)
    requires jobs != []
    reads jobs[|jobs| - 1]
    ensures jobs[|jobs| - 1].tEnd.Some? ==> span == jobs[|jobs| - 1].tEnd.value - jobs[0].tCreate
    ensures jobs[|jobs| - 1].tEnd.None? ==> span == now - jobs[0].tCreate
  {
    var last := jobs[|jobs| - 1];
    (if Truthy(OptInt(last.tEnd)) then last.tEnd.value else now) - jobs[0].tCreate
  }

  /** Completed jobs per tick over `span`, and 0 when the span is not positive. */
  function Throughput(n: nat, span: int): (r: real)
    ensures span > 0 ==> r * span as real == n as real
    ensures span <= 0 ==> r == 0.0
  {
    if span > 0 then n as real / span as real else 0.0
  }

  /** The exported record of one job: identity, level name, wait and
      execution time, and the three timestamps, with NA for what is absent. */
  function Row(j: Job): (row: seq<Cell>)
    reads j
    ensures |row| == |Header|
    ensures row[0] == Id(j.id) && row[1] == Name(j.prio.Name()) && row[4] == Stamp(j.tCreate)
    ensures row[2] == NA <==> !Truthy(j.WaitTime())
    ensures row[3] == NA <==> !Truthy(j.RunTime())
    ensures row[5] == NA <==> j.tStart.None?
    ensures row[6] == NA <==> j.tEnd.None?
    ensures Truthy(j.WaitTime()) ==> row[2] == Seconds(j.WaitTime().value)
    ensures Truthy(j.RunTime()) ==> row[3] == Seconds(j.RunTime().value)
    ensures j.tStart.Some? ==> row[5] == Stamp(j.tStart.value)
    ensures j.tEnd.Some? ==> row[6] == Stamp(j.tEnd.value)
  {
    [ Id(j.id),
      Name(j.prio.Name()),
      if Truthy(j.WaitTime()) then Seconds(j.WaitTime().value) else NA,
      if Truthy(j.RunTime()) then Seconds(j.RunTime().value) else NA,
      Stamp(j.tCreate),
      if Truthy(OptInt(j.tStart)) then Stamp(j.tStart.value) else NA,
      if Truthy(OptInt(j.tEnd)) then Stamp(j.tEnd.value) else NA ]
  }

  /** The accumulator of completed jobs (in completion order) and of CPU
      samples with their sampling times. */
  class Stats {
    var doneJobs: seq<Job>
    var cpu: seq<real>
    var cpuT: seq<Tick>

    constructor ()
      ensures doneJobs == [] && cpu == [] && cpuT == []
    {
      doneJobs := [];
      cpu := [];
      cpuT := [];
    }

    /** Records a completed job. */
    method AddJob(j: Job)
      modifies this
      ensures doneJobs == old(doneJobs) + [j]
      ensures cpu == old(cpu) && cpuT == old(cpuT)
    {
      doneJobs := doneJobs + [j];
    }

    /** Records a CPU sample together with the time it was taken. */
    method AddCpu(u: real, clock: Clock)
      modifies this
      ensures cpu == old(cpu) + [u] && cpuT == old(cpuT) + [clock.now]
      ensures doneJobs == old(doneJobs)
    {
      cpu := cpu + [u];
      cpuT := cpuT + [clock.now];
    }

    /** The summary of the completed jobs and CPU samples; `now` is the
        current clock reading, used when the last job has no end time. */
    function GetStats(now: Tick): (s: Summary)
      reads this, doneJobs
      ensures doneJobs == [] ==> s == Summary(0, 0.0, 0.0, 0.0, 0.0, None)
      ensures doneJobs != [] ==>
        && s.totalTasks == |doneJobs|
        && s.priorityBreakdown.Some?
        && s.priorityBreakdown.value.high + s.priorityBreakdown.value.medium
           + s.priorityBreakdown.value.low == s.totalTasks
        && s.priorityBreakdown.value.high == Count(doneJobs, Hi)
        && s.priorityBreakdown.value.medium == Count(doneJobs, Med)
        && s.priorityBreakdown.value.low == Count(doneJobs, Lo)
        && s.avgWaitTime == Mean(Present(Waits(doneJobs)))
        && s.avgExecutionTime == Mean(Present(Runs(doneJobs)))
        && s.throughput == Throughput(|doneJobs|, Span(doneJobs, now))
        && s.avgCpuUsage == MeanReal(cpu)
    {
      if doneJobs == [] then
        Summary(0, 0.0, 0.0, 0.0, 0.0, None)
      else
        CountsPartition(doneJobs);
        var breakdown := Breakdown(Count(doneJobs, Hi), Count(doneJobs, Med), Count(doneJobs, Lo));
        Summary(|doneJobs|, Mean(Present(Waits(doneJobs))), Mean(Present(Runs(doneJobs))),
                Throughput(|doneJobs|, Span(doneJobs, now)), MeanReal(cpu), Some(breakdown))
    }

    /** The per-job record table: the header, then one record per completed
        job in completion order. */
    method ToCsv() returns (header: seq<string>, rows: seq<seq<Cell>>)
      ensures header == Header
      ensures |rows| == |doneJobs|
      ensures forall i :: 0 <= i < |doneJobs| ==> rows[i] == Row(doneJobs[i])
    {
      header := Header;
      rows := [];
      for i := 0 to |doneJobs|
        invariant |rows| == i
        invariant forall k :: 0 <= k < i ==> rows[k] == Row(doneJobs[k])
      {
        rows := rows + [Row(doneJobs[i])];
      }
    }
  }

  /** The mean of the filtered list is the sum of the truthy values divided
      by the number of truthy positions, and 0 when there are none. */
  lemma MeanOfTruthy(xs: seq<Option<int>>)
    ensures |TruthyIndices(xs)| == 0 ==> Mean(Present(xs)) == 0.0
    ensures |TruthyIndices(xs)| > 0 ==> Mean(Present(xs)) == TruthyTotal(xs) as real / |TruthyIndices(xs)| as real
  {
    PresentTotals(xs);
  }

  /** The average wait time is taken over exactly the truthy wait times:
      with `k` jobs whose wait time is truthy it is 0 when `k` is 0, and
      otherwise it is the sum of those wait times divided by `k`. */
  lemma AvgWaitIsMeanOfTruthy(st: Stats, now: Tick)
    requires st.doneJobs != []
    ensures |TruthyIndices(Waits(st.doneJobs))| == 0 ==> st.GetStats(now).avgWaitTime == 0.0
    ensures |TruthyIndices(Waits(st.doneJobs))| > 0 ==>
      st.GetStats(now).avgWaitTime == TruthyTotal(Waits(st.doneJobs)) as real / |TruthyIndices(Waits(st.doneJobs))| as real
  {
    MeanOfTruthy(Waits(st.doneJobs));
  }

  /** The average execution time is taken over exactly the truthy execution
      times: 0 without any, and otherwise their sum divided by their
      number. */
  lemma AvgExecIsMeanOfTruthy(st: Stats, now: Tick)
    requires st.doneJobs != []
    ensures |TruthyIndices(Runs(st.doneJobs))| == 0 ==> st.GetStats(now).avgExecutionTime == 0.0
    ensures |TruthyIndices(Runs(st.doneJobs))| > 0 ==>
      st.GetStats(now).avgExecutionTime == TruthyTotal(Runs(st.doneJobs)) as real / |TruthyIndices(Runs(st.doneJobs))| as real
  {
    MeanOfTruthy(Runs(st.doneJobs));
  }

  /** Each level's figure in the breakdown is the number of recorded jobs at
      that level. */
  lemma BreakdownCountsLevels(st: Stats, now: Tick)
    requires st.doneJobs != []
    ensures var b := st.GetStats(now).priorityBreakdown.value;
      && b.high == |LevelIndices(st.doneJobs, Hi)|
      && b.medium == |LevelIndices(st.doneJobs, Med)|
      && b.low == |LevelIndices(st.doneJobs, Lo)|
  {
    CountIsLevelSize(st.doneJobs, Hi);
    CountIsLevelSize(st.doneJobs, Med);
    CountIsLevelSize(st.doneJobs, Lo);
  }

  /** The average CPU usage of a non-empty collector is the mean of all
      samples, and 0 without samples. */
  lemma AvgCpuIsMean(st: Stats, now: Tick)
    requires st.doneJobs != []
    ensures st.cpu == [] ==> st.GetStats(now).avgCpuUsage == 0.0
    ensures st.cpu != [] ==> st.GetStats(now).avgCpuUsage * |st.cpu| as real == SumReal(st.cpu)
  {
    if st.cpu != [] {
      MeanRealScaled(st.cpu);
    }
  }

  /** When every recorded job's timestamps are in order (as a forward-only
      clock guarantees), neither average time is negative. */
  lemma AveragesNonNegative(st: Stats, now: Tick)
    requires forall i :: 0 <= i < |st.doneJobs| ==> st.doneJobs[i].Ordered()
    ensures st.GetStats(now).avgWaitTime >= 0.0
    ensures st.GetStats(now).avgExecutionTime >= 0.0
  {
    var jobs := st.doneJobs;
    if jobs != [] {
      var ws := Present(Waits(jobs));
      forall x | x in ws
        ensures 0 <= x
      {
        PresentFrom(Waits(jobs), x);
        var i :| 0 <= i < |jobs| && Waits(jobs)[i] == Some(x);
      }
      MeanAtLeast(ws, 0);
      var rs := Present(Runs(jobs));
      forall x | x in rs
        ensures 0 <= x
      {
        PresentFrom(Runs(jobs), x);
        var i :| 0 <= i < |jobs| && Runs(jobs)[i] == Some(x);
      }
      MeanAtLeast(rs, 0);
    }
  }
}
