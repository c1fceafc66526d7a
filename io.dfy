/** The outside world of the driver: the opened serial port (Write, Flush,
    Close of tarm/serial) and the wall clock (time.Sleep).  Both are recorded
    on one timeline of events, so that the order of frames and delays can be
    stated.  Whether an I/O attempt fails is decided by a fault oracle: the
    set of timeline positions at which the attempted operation returns an
    error.  A sleep never fails. */
module Io {

  /** A byte on the wire (Go's `byte`). */
  type Byte = b: int | 0 <= b < 256

  /** One attempted operation on the outside world, in the order attempted. */
  datatype Event =
    | Wrote(bytes: seq<Byte>)   // serial.Port.Write
    | Flushed                   // serial.Port.Flush
    | Closed                    // serial.Port.Close
    | Slept(ms: nat)            // time.Sleep

  /** An I/O error, identified by the timeline position of the attempt that failed. */
  datatype Error = IoError(at: nat)

  /** Go's `error` result: nil, or an error. */
  datatype Outcome = Ok | Fail(error: Error)

  /** The outcome of an I/O attempt made at timeline position `at`. */
  function FaultAt(faults: set<nat>, at: nat): (r: Outcome)
    ensures r.Fail? <==> at in faults
    ensures r.Fail? ==> r.error.at == at
  {
    if at in faults then Fail(IoError(at)) else Ok
  }

  /** Events that can fail: everything except a sleep. */
  predicate CanFail(e: Event)
  {
    !e.Slept?
  }

  class World {
    var events: seq<Event>
    const faults: set<nat>

    constructor (faults: set<nat>)
      ensures events == [] && this.faults == faults
    {
      events := [];
      this.faults := faults;
    }

    method Write(bytes: seq<Byte>) returns (r: Outcome)
      modifies this
      ensures events == old(events) + [Wrote(bytes)]
      ensures r == FaultAt(faults, |old(events)|)
    {
      r := FaultAt(faults, |events|);
      events := events + [Wrote(bytes)];
    }

    method Flush() returns (r: Outcome)
      modifies this
      ensures events == old(events) + [Flushed]
      ensures r == FaultAt(faults, |old(events)|)
    {
      r := FaultAt(faults, |events|);
      events := events + [Flushed];
    }

    method Close() returns (r: Outcome)
      modifies this
      ensures events == old(events) + [Closed]
      ensures r == FaultAt(faults, |old(events)|)
    {
      r := FaultAt(faults, |events|);
      events := events + [Closed];
    }

    method Sleep(ms: nat)
      modifies this
      ensures events == old(events) + [Slept(ms)]
    {
      events := events + [Slept(ms)];
    }
  }
}
