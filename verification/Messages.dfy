/** Messages, their encodings and the wire form of a batch (internal/core/message.go, internal/core/analytics.go). */
module Messages {

  datatype Option<+T> = None | Some(value: T)
  datatype Result<+T, +E> = Ok(value: T) | Err(error: E)

  /** One byte of JSON text, written as the character with that code. */
  type Byte = c: char | c as int < 256 witness 'a'
  type Bytes = seq<Byte>

  const MAX_BATCH_BYTES := 500000
  const MAX_MESSAGE_BYTES := 32000
  const SENT_AT_LENGTH := 24

  datatype Error =
    | NotEncodable
    | MessageTooBig
    | MarshalFailed
    | TooManyRequests
    | SendFailed(code: int)

  /** What `json.Marshal` makes of a message. */
  datatype Encoding = Encoded(json: Bytes) | Unencodable

  /** A message as the application enqueued it; `call` names the `Enqueue` call that carried it. */
  datatype Msg = Msg(call: nat, encoding: Encoding)

  /** A message ready for a batch: the original and its encoding. */
  datatype Message = Message(msg: Msg, json: Bytes)

  function MakeMessage(m: Msg, maxBytes: int): (r: Result<Message, Error>)
  {
    match m.encoding
    case Unencodable => Err(NotEncodable)
    case Encoded(json) => if |json| > maxBytes then Err(MessageTooBig) else Ok(Message(m, json))
  }

  /** The encoded length plus one, for the comma between two array items. */
  function Size(m: Message): nat {
    |m.json| + 1
  }

  function Originals(ms: seq<Message>): (r: seq<Msg>)
    ensures |r| == |ms|
    ensures forall i :: 0 <= i < |ms| ==> r[i] == ms[i].msg
  {
    seq(|ms|, i requires 0 <= i < |ms| => ms[i].msg)
  }

  function TotalLength(ms: seq<Message>): nat {
    if ms == [] then 0 else TotalLength(ms[..|ms| - 1]) + |ms[|ms| - 1].json|
  }

  lemma {:induction false} TotalLengthConcat(a: seq<Message>, b: seq<Message>)
    ensures TotalLength(a + b) == TotalLength(a) + TotalLength(b)
  {
    if b == [] {
      assert a + b == a;
    } else {
      var last := |b| - 1;
      assert (a + b)[..|a + b| - 1] == a + b[..last];
      TotalLengthConcat(a, b[..last]);
    }
  }

  /** The items of a JSON array with commas between them. */
  function Items(ms: seq<Message>): Bytes {
    if ms == [] then []
    else if |ms| == 1 then ms[0].json
    else Items(ms[..|ms| - 1]) + [','] + ms[|ms| - 1].json
  }

  /** The JSON object posted for a batch. A nil slice encodes as `null`. */
  function MarshalBatch(sentAt: Bytes, messages: Option<seq<Message>>): Bytes {
    Head() + sentAt + Middle()
    + (match messages case None => Null() case Some(ms) => ['['] + Items(ms) + [']'])
    + ['}']
  }

  function Head(): Bytes { "{\"sentAt\":\"" }
  function Middle(): Bytes { "\",\"batch\":" }
  function Null(): Bytes { "null" }

  /** What is left of the request limit once an envelope without messages is taken off. */
  function MaxBatchBytes(sentAt: Bytes): int {
    MAX_BATCH_BYTES - |MarshalBatch(sentAt, None)|
  }

  lemma {:induction false} ItemsLength(ms: seq<Message>)
    requires ms != []
    ensures |Items(ms)| == TotalLength(ms) + |ms| - 1
  {
    if |ms| == 1 {
      assert ms[..0] == [];
      assert TotalLength(ms[..0]) == 0;
    } else {
      ItemsLength(ms[..|ms| - 1]);
    }
  }

  /** The exact number of bytes on the wire, and the budget the batcher is given for the messages. */
  lemma {:induction false} PayloadLength(sentAt: Bytes, ms: seq<Message>)
    requires |sentAt| == SENT_AT_LENGTH
    requires ms != []
    ensures |MarshalBatch(sentAt, Some(ms))| == 47 + TotalLength(ms) + |ms|
    ensures MaxBatchBytes(sentAt) == 499950
  {
    ItemsLength(ms);
    assert |Head()| == 11 && |Middle()| == 10 && |Null()| == 4;
  }
}
