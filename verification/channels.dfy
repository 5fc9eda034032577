/** Buffered Go channels of errors: as values, for specifications and for the
    protocol, and as heap objects, for the code that shares them. */
module Channels {
  import opened Errors

  /** Capacity of every channel handed out by Started() and Stopped(). */
  const CAPACITY: nat := 32

  /** A channel with its whole history: everything ever sent, how much of it has
      been received, and whether the channel was closed. */
  datatype Chan = Chan(sent: seq<Error>, taken: nat, closed: bool) {
    function Backlog(): int { |sent| - taken }

    /** A receive would not block. */
    predicate Readable() { taken < |sent| || closed }
  }

  /** What one call of base.start(err) or base.stop(err) does to a listed channel. */
  function Deliver(ch: Chan, err: Option<Error>): Chan {
    match err
    case None => ch.(closed := true)
    case Some(e) => ch.(sent := ch.sent + [e])
  }

  function Take(ch: Chan): Chan {
    if ch.taken < |ch.sent| then ch.(taken := ch.taken + 1) else ch
  }

  /** What a receive yields; Nil is the zero value of a closed, drained channel. */
  datatype Received = Blocked | Nil | Got(err: Error)

  class Channel {
    const cap: nat
    var buf: seq<Error>
    var closed: bool
    ghost var sent: seq<Error>

    ghost predicate Valid()
      reads this
    {
      && |buf| <= cap
      && |buf| <= |sent|
      && buf == sent[|sent| - |buf|..]
    }

    ghost function Value(): Chan
      reads this
      requires Valid()
    {
      Chan(sent, |sent| - |buf|, closed)
    }

    constructor (cap: nat)
      ensures Valid() && this.cap == cap
      ensures Value() == Chan([], 0, false) && buf == []
    {
      this.cap, buf, closed, sent := cap, [], false, [];
    }

    /** A send on a closed channel panics, so callers must rule it out; a send on a
        full channel blocks, which is reported instead of performed. */
    method Send(e: Error) returns (ok: bool)
      requires Valid() && !closed
      modifies this
      ensures Valid() && ok == (|old(buf)| < cap)
      ensures Value() == if ok then Deliver(old(Value()), Some(e)) else old(Value())
      ensures buf == (if ok then old(buf) + [e] else old(buf)) && !closed
    {
      ok := |buf| < cap;
      if ok {
        buf := buf + [e];
        sent := sent + [e];
      }
    }

    /** Closing twice panics. */
    method Close()
      requires Valid() && !closed
      modifies `closed
      ensures Valid() && Value() == Deliver(old(Value()), None) && closed
    {
      closed := true;
    }

    method Receive() returns (r: Received)
      requires Valid()
      modifies this
      ensures Valid() && Value() == Take(old(Value()))
      ensures r.Blocked? <==> !old(Value()).Readable()
      ensures r.Nil? <==> old(buf) == [] && closed
      ensures r.Got? <==> old(buf) != []
      ensures r.Got? ==> r.err == old(buf)[0] && old(buf) == [r.err] + buf
    {
      if buf != [] {
        r := Got(buf[0]);
        buf := buf[1..];
      } else {
        r := if closed then Nil else Blocked;
      }
    }
  }
}
