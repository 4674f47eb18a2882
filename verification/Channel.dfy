/** The in-memory queue: a buffered channel with a closed flag beside it (internal/queue/channel.go). */
module Channels {

  /** The buffered channel and the atomic flag. */
  datatype Chan<T> = Chan(buf: seq<T>, flag: bool, closed: bool)

  // ----- The atomic steps -----

  predicate HasRoom<T>(capacity: nat, ch: Chan<T>) {
    |ch.buf| < capacity
  }

  function Sent<T>(ch: Chan<T>, m: T): Chan<T> {
    ch.(buf := ch.buf + [m])
  }

  function Taken<T>(ch: Chan<T>): Chan<T>
    requires ch.buf != []
  {
    ch.(buf := ch.buf[1..])
  }

  function FlagStored<T>(ch: Chan<T>): Chan<T> {
    ch.(flag := true)
  }

  function ChanClosed<T>(ch: Chan<T>): Chan<T> {
    ch.(closed := true)
  }

  // ----- The queue as one goroutine uses it -----

  datatype EnqueueOutcome = Enqueued | QueueClosed | QueueFull | SendBlocks
  datatype DequeueOutcome<T> = Got(value: T) | NothingLeft | NothingYet | ReceiveBlocks

  class ChannelQueue<T> {
    const capacity: nat
    var buffer: seq<T>
    var chanClosed: bool
    var closed: bool
    /** Everything that was ever sent, and everything that was ever received. */
    ghost var accepted: seq<T>
    ghost var received: seq<T>

    ghost predicate Valid()
      reads this
    {
      && 1 <= capacity
      && |buffer| <= capacity
      && (chanClosed <==> closed)
      && accepted == received + buffer
    }

    function View(): Chan<T>
      reads this
    {
      Chan(buffer, closed, chanClosed)
    }

    constructor (requested: int)
      ensures Valid() && View() == Chan([], false, false) && accepted == []
      ensures capacity == if requested <= 0 then 100 else requested
    {
      capacity := if requested <= 0 then 100 else requested;
      buffer, chanClosed, closed, accepted, received := [], false, false, [], [];
    }

    /** The flag is read first; on a full channel the call does not return until there is room. */
    method Enqueue(m: T) returns (r: EnqueueOutcome)
      requires Valid()
      modifies this
      ensures Valid() && received == old(received)
      ensures r == if old(closed) then QueueClosed else if HasRoom(capacity, old(View())) then Enqueued else SendBlocks
      ensures View() == if r == Enqueued then Sent(old(View()), m) else old(View())
      ensures accepted == if r == Enqueued then old(accepted) + [m] else old(accepted)
    {
      if closed {
        return QueueClosed;
      }
      if |buffer| == capacity {
        return SendBlocks;
      }
      buffer := buffer + [m];
      accepted := accepted + [m];
      r := Enqueued;
    }

    method TryEnqueue(m: T) returns (r: EnqueueOutcome)
      requires Valid()
      modifies this
      ensures Valid() && received == old(received)
      ensures r == if old(closed) then QueueClosed else if HasRoom(capacity, old(View())) then Enqueued else QueueFull
      ensures View() == if r == Enqueued then Sent(old(View()), m) else old(View())
    {
      r := Enqueue(m);
      if r == SendBlocks {
        r := QueueFull;
      }
    }

    /** Messages come out in order, also after the close; a closed and empty queue says so. */
    method Dequeue() returns (r: DequeueOutcome<T>)
      requires Valid()
      modifies this
      ensures Valid() && accepted == old(accepted)
      ensures old(buffer) != [] ==> r == Got(old(buffer)[0]) && View() == Taken(old(View())) && received == old(received) + [old(buffer)[0]]
      ensures old(buffer) == [] ==> r == (if closed then NothingLeft else ReceiveBlocks) && View() == old(View()) && received == old(received)
    {
      if buffer != [] {
        r := Got(buffer[0]);
        received := received + [buffer[0]];
        buffer := buffer[1..];
      } else {
        r := if chanClosed then NothingLeft else ReceiveBlocks;
      }
    }

    method TryDequeue() returns (r: DequeueOutcome<T>)
      requires Valid()
      modifies this
      ensures Valid() && accepted == old(accepted)
      ensures old(buffer) != [] ==> r == Got(old(buffer)[0]) && View() == Taken(old(View()))
      ensures old(buffer) == [] ==> r == (if closed then NothingLeft else NothingYet) && View() == old(View())
    {
      r := Dequeue();
      if r.ReceiveBlocks? {
        r := NothingYet;
      }
    }

    /** The flag is stored before the channel is closed; closing again does nothing. */
    method Close()
      requires Valid()
      modifies this`closed, this`chanClosed
      ensures Valid() && View() == ChanClosed(FlagStored(old(View())))
    {
      if !closed {
        closed := true;
        chanClosed := true;
      }
    }

    /** Ranging over the drained channel yields what was accepted and not received, in order, and ends. */
    method Drain() returns (drained: seq<T>)
      requires Valid() && closed
      modifies this`buffer, this`received
      ensures Valid() && buffer == [] && received == accepted
      ensures old(received) + drained == accepted
    {
      drained := [];
      while buffer != []
        invariant Valid()
        invariant received == old(received) + drained
        decreases |buffer|
      {
        drained := drained + [buffer[0]];
        received := received + [buffer[0]];
        buffer := buffer[1..];
      }
    }
  }
}
