/** The batcher as the client runs it: a slice appended to in place (internal/core/message.go:92-121). */
module MessageQueues {
  import opened Messages
  import opened Batching

  /** A Go slice: nil, or the first `len` elements of a buffer whose length is the capacity. */
  datatype Slice = Nil | Slice(buf: array<Message>, len: nat) {
    ghost predicate Valid() {
      Slice? ==> len <= buf.Length
    }

    ghost function Elements(): (r: seq<Message>)
      requires Valid()
      reads if Slice? then {buf} else {}
      ensures Slice? ==> |r| == len
    {
      if Nil? then [] else buf[..len]
    }

    ghost function Buffer(): set<array<Message>> {
      if Nil? then {} else {buf}
    }
  }

  /** `append(s, m)`: in place while the capacity lasts, otherwise into a larger copy. */
  method Append(s: Slice, m: Message) returns (r: Slice)
    requires s.Slice? && s.Valid()
    modifies s.buf
    ensures r.Slice? && r.Valid()
    ensures r.Elements() == old(s.Elements()) + [m]
    ensures s.len < s.buf.Length ==> r.buf == s.buf
    ensures s.len == s.buf.Length ==> fresh(r.buf) && s.buf[..] == old(s.buf[..])
  {
    if s.len < s.buf.Length {
      s.buf[s.len] := m;
      r := Slice(s.buf, s.len + 1);
    } else {
      var bigger := new Message[2 * s.len + 1](i reads s.buf => if 0 <= i < s.buf.Length then s.buf[i] else m);
      r := Slice(bigger, s.len + 1);
    }
  }

  class MessageQueue {
    var pending: Slice
    var bytes: int
    const maxBatchSize: nat
    const maxBatchBytes: int
    /** The buffers that have been returned by `Push` or `Flush` so far. */
    ghost var handedOff: set<array<Message>>

    ghost predicate Valid()
      reads this, pending.Buffer()
    {
      Shape() && ValidQueue(Lim(), Abs())
    }

    /** The pending slice is nil, or non-empty, not yet full, and in a buffer of its own. */
    ghost predicate Shape()
      reads this
    {
      && 1 <= maxBatchSize
      && pending.Valid()
      && (pending.Slice? ==>
            && pending.buf.Length == maxBatchSize
            && 0 < pending.len < maxBatchSize
            && pending.buf !in handedOff)
    }

    function Lim(): Limits {
      Limits(maxBatchSize, maxBatchBytes)
    }

    ghost function Abs(): Queue
      requires pending.Valid()
      reads this, pending.Buffer()
    {
      Queue(pending.Elements(), bytes)
    }

    constructor (maxBatchSize: nat, maxBatchBytes: int)
      requires 1 <= maxBatchSize
      ensures Valid() && Abs() == EMPTY && handedOff == {}
      ensures Lim() == Limits(maxBatchSize, maxBatchBytes) && pending.Nil?
    {
      this.maxBatchSize, this.maxBatchBytes := maxBatchSize, maxBatchBytes;
      pending, bytes, handedOff := Nil, 0, {};
    }

    /** Returns the pending slice itself and forgets it; also called inside `Push` when the count is reached. */
    method Flush() returns (msgs: Slice)
      requires 1 <= maxBatchSize && pending.Valid()
      modifies this
      ensures Shape() && Abs() == EMPTY && pending.Nil?
      ensures msgs == old(pending)
      ensures handedOff == old(handedOff) + msgs.Buffer()
    {
      handedOff := handedOff + pending.Buffer();
      msgs, pending, bytes := pending, Nil, 0;
    }

    /** The slice's element sequence grows by `m`, in the reserved buffer. */
    method Add(m: Message)
      requires 1 <= maxBatchSize && pending.Valid()
      requires pending.Slice? ==>
        pending.buf.Length == maxBatchSize && pending.len < maxBatchSize && pending.buf !in handedOff
      modifies this`pending, this`bytes, pending.Buffer()
      ensures pending.Slice? && pending.Valid() && pending.len > 0
      ensures pending.buf.Length == maxBatchSize && pending.buf !in handedOff
      ensures old(pending).Slice? ==> pending.buf == old(pending).buf
      ensures old(pending).Nil? ==> fresh(pending.buf)
      ensures Abs() == Queue(old(pending.Elements()) + [m], old(bytes) + |m.json|)
    {
      if pending.Nil? {
        var zero := Message(Msg(0, Unencodable), []);
        var buf := new Message[maxBatchSize](_ => zero);
        pending := Slice(buf, 0);
      }
      pending := Append(pending, m);
      bytes := bytes + |m.json|;
    }

    /**
     * Appends `m`, returning a batch when one limit is reached. No buffer handed off before is
     * written, and the reserved capacity is never outgrown: the pending buffer stays the same
     * array until it is handed off.
     */
    method Push(m: Message) returns (b: Slice)
      requires Shape()
      modifies this, pending.Buffer()
      ensures Shape()
      ensures b.Valid() && (b.Slice? ==> b.len > 0)
      ensures Outcome(if b.Nil? then [] else [b.Elements()], Abs()) == PushStep(Lim(), old(Abs()), m)
      ensures old(Valid()) ==> Valid()
      ensures handedOff == old(handedOff) + b.Buffer()
      ensures forall a :: a in old(handedOff) ==> a[..] == old(a[..])
      ensures fresh(b.Buffer() + pending.Buffer() - old(pending.Buffer()))
    {
      ghost var before := Abs();
      ghost var wasValid := Valid();
      b := Nil;
      if bytes + Size(m) > maxBatchBytes {
        b := Flush();
      }
      Add(m);
      if b.Nil? && pending.len == maxBatchSize {
        b := Flush();
      }
      assert wasValid ==> Valid() by {
        if wasValid { PushKeepsValid(Lim(), before, m); }
      }
    }
  }
}
