/** Priority levels, jobs, the order of the ready queue and a job's timing. */
module Jobs {
  import opened Base

  /** The three priority levels; a smaller value is served first. */
  datatype Prio = Hi | Med | Lo {

    /** The level's integer value. */
    function Value(): (v: int)
      ensures 1 <= v <= 3
    {
      match this
      case Hi => 1
      case Med => 2
      case Lo => 3
    }

    /** The level's member name, as written into exported records. */
    function Name(): string
    {
      match this
      case Hi => "hi"
      case Med => "med"
      case Lo => "lo"
    }
  }

  /** One unit of scheduled work. Identity, priority, work item and creation
      time are fixed at construction; start and end times are recorded by Run. */
  class Job {
    const id: int
    const prio: Prio
    const work: Work
    const tCreate: Tick
    var tStart: Option<Tick>
    var tEnd: Option<Tick>

    /** A new job, stamped with the clock's current reading. */
    constructor (id: int, prio: Prio, work: Work, clock: Clock)
      ensures this.id == id && this.prio == prio && this.work == work
      ensures tCreate == clock.now && tStart == None && tEnd == None
    {
      this.id := id;
      this.prio := prio;
      this.work := work;
      tCreate := clock.now;
      tStart := None;
      tEnd := None;
    }

    /** The ready queue's order: the smaller priority value first, and within
        one level the earlier creation time first. */
    function Precedes(other: Job): (r: bool)
      ensures prio.Value() < other.prio.Value() ==> r
      ensures other.prio.Value() < prio.Value() ==> !r
      ensures prio == other.prio ==> (r <==> tCreate < other.tCreate)
    {
      if prio != other.prio then prio.Value() < other.prio.Value()
      else tCreate < other.tCreate
    }

    /** The lifecycle invariant: created, then started, then ended. */
    ghost predicate Ordered()
      reads this
    {
      && (tStart.Some? ==> tCreate <= tStart.value)
      && (tEnd.Some? ==> tStart.Some? && tStart.value <= tEnd.value)
    }

    /** Runs the work item: records the start time, invokes the work, records
        the end time whether the work succeeded or failed, and then hands back
        the value or passes the failure on. */
    method Run(clock: Clock) returns (r: Outcome)
      modifies this, clock
      ensures clock.now == old(clock.now) + work.duration
      ensures tStart == Some(old(clock.now)) && tEnd == Some(clock.now)
      ensures r == work.outcome
      ensures tCreate <= old(clock.now) ==> Ordered()
    {
      tStart := Some(clock.now);
      clock.Advance(work.duration);
      match work.outcome
      case Ok(v) =>
        tEnd := Some(clock.now);
        r := Ok(v);
      case Err(e) =>
        tEnd := Some(clock.now);
        r := Err(e);
    }

    /** Time spent queued: absent until the start time is recorded. */
    function WaitTime(): (w: Option<int>)
      reads this
      ensures w.None? <==> tStart.None?
      ensures w.Some? ==> tStart.value == tCreate + w.value
      ensures Ordered() && w.Some? ==> w.value >= 0
    {
      if Truthy(OptInt(tStart)) then Some(tStart.value - tCreate) else None
    }

    /** Time spent running: absent unless both start and end are recorded. */
    function RunTime(): (w: Option<int>)
      reads this
      ensures w.None? <==> tStart.None? || tEnd.None?
      ensures w.Some? ==> tEnd.value == tStart.value + w.value
      ensures Ordered() && w.Some? ==> w.value >= 0
    {
      if Truthy(OptInt(tStart)) && Truthy(OptInt(tEnd)) then Some(tEnd.value - tStart.value) else None
    }
  }

  /** The levels' values ascend from high to low priority. */
  lemma ValuesAscend()
    ensures Hi.Value() < Med.Value() < Lo.Value()
  {
  }

  /** A recorded timestamp viewed as an optional number. */
  function OptInt(o: Option<Tick>): Option<int>
  {
    match o
    case None => None
    case Some(t) => Some(t)
  }

  /** The queue order is a strict order: irreflexive, asymmetric and
      transitive, so a least element of a finite queue always exists. */
  lemma PrecedesIsStrict(a: Job, b: Job, c: Job)
    ensures !a.Precedes(a)
    ensures a.Precedes(b) ==> !b.Precedes(a)
    ensures a.Precedes(b) && b.Precedes(c) ==> a.Precedes(c)
  {
  }

  /** Two jobs are unordered exactly when they share both the priority level
      and the creation time. */
  lemma UnorderedIsTie(a: Job, b: Job)
    ensures !a.Precedes(b) && !b.Precedes(a) <==> a.prio == b.prio && a.tCreate == b.tCreate
  {
  }
}
