/** Wrappers, the work-item abstraction and the abstract clock shared by the
    scheduler's components. */
module Base {

  datatype Option<+T> = None | Some(value: T)

  /** What invoking a job's work item gives back: the value it returned or the
      failure it raised. */
  datatype Outcome = Ok(value: string) | Err(error: string)

  /** A work item bound to its arguments: the outcome invoking it produces and
      the number of clock ticks the invocation takes. */
  datatype Work = Work(outcome: Outcome, duration: nat)

  /** A clock reading. Readings are positive, as seconds since the epoch are. */
  type Tick = t: int | t > 0 witness 1

  /** Truthiness of an optional number: present and non-zero. */
  predicate Truthy(o: Option<int>)
  {
    o.Some? && o.value != 0
  }

  /** The wall clock, as integer ticks: it only ever moves forward. */
  class Clock {
    var now: Tick

    constructor (start: Tick)
      ensures now == start
    {
      now := start;
    }

    /** Lets `d` ticks pass. */
    method Advance(d: nat)
      modifies this
      ensures now == old(now) + d
    {
      now := now + d;
    }
  }
}
