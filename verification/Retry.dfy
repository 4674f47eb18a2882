/** The retry loop of one batch (internal/core/analytics.go:291-324). */
module Retry {
  import opened Messages
  import opened EventTrace

  const ATTEMPTS := 10

  datatype SendResult = Delivered | Refused(code: int)
  datatype Attempt = Attempt(payload: Bytes, result: SendResult)

  /** Every attempt was refused: what holds while the loop is still retrying. */
  predicate AllRefused(attempts: seq<Attempt>) {
    forall i :: 0 <= i < |attempts| ==> attempts[i].result.Refused?
  }

  /** No attempt follows one that was delivered. */
  predicate InOrder(attempts: seq<Attempt>) {
    attempts != [] ==> AllRefused(attempts[..|attempts| - 1])
  }

  /**
   * The verdict the attempts call for: between one and ten of them, all but the last refused,
   * success exactly when the last was delivered, otherwise failure with the last one's error.
   */
  predicate ResolvedBy(attempts: seq<Attempt>, verdict: Verdict) {
    && 1 <= |attempts| <= ATTEMPTS
    && AllRefused(attempts[..|attempts| - 1])
    && match attempts[|attempts| - 1].result
       case Delivered => verdict == Success
       case Refused(code) => verdict == Failure(SendFailed(code))
  }

  predicate SamePayload(attempts: seq<Attempt>, payload: Bytes) {
    forall i :: 0 <= i < |attempts| ==> attempts[i].payload == payload
  }

  /** One more attempt keeps the record in order, or settles it. */
  lemma OneMoreAttempt(attempts: seq<Attempt>, a: Attempt)
    requires AllRefused(attempts) && |attempts| < ATTEMPTS
    ensures a.result.Refused? ==> AllRefused(attempts + [a])
    ensures ResolvedBy(attempts + [a],
                       if a.result.Delivered? then Success else Failure(SendFailed(a.result.code)))
  {
    assert (attempts + [a])[..|attempts + [a]| - 1] == attempts;
  }

  lemma OneMoreInOrder(attempts: seq<Attempt>, a: Attempt)
    requires AllRefused(attempts)
    ensures InOrder(attempts + [a])
  {
    assert (attempts + [a])[..|attempts + [a]| - 1] == attempts;
  }

  /** `notifySuccess` or `notifyFailure`: one callback per message, in order. */
  method Notify(messages: seq<Message>, verdict: Verdict) returns (notes: seq<Note>)
    ensures |notes| == |messages|
    ensures forall i :: 0 <= i < |messages| ==> notes[i] == Note(messages[i].msg, verdict)
  {
    notes := [];
    for i := 0 to |messages|
      invariant |notes| == i
      invariant forall j :: 0 <= j < i ==> notes[j] == Note(messages[j].msg, verdict)
    {
      notes := notes + [Note(messages[i].msg, verdict)];
    }
  }

  /**
   * `client.send`. `answer(i)` is what `Dispatcher.Send` returns the i-th time, and `quitSeen(i)`
   * whether the wait after the i-th failure ends because the client is closed.
   */
  method Send(messages: seq<Message>, sentAt: Bytes, marshals: bool, answer: nat -> SendResult, quitSeen: nat -> bool)
    returns (attempts: seq<Attempt>, notes: seq<Note>, verdict: Verdict)
    ensures |notes| == |messages|
    ensures forall i :: 0 <= i < |messages| ==> notes[i] == Note(messages[i].msg, verdict)
    ensures !marshals ==> attempts == [] && verdict == Failure(MarshalFailed)
    ensures marshals ==> ResolvedBy(attempts, verdict) && SamePayload(attempts, MarshalBatch(sentAt, Some(messages)))
    ensures forall i :: 0 <= i < |attempts| ==> attempts[i].result == answer(i)
    ensures forall i :: 0 <= i < |attempts| - 1 ==> !quitSeen(i)
    ensures marshals && 1 <= |attempts| < ATTEMPTS ==> answer(|attempts| - 1).Delivered? || quitSeen(|attempts| - 1)
  {
    attempts := [];
    if !marshals {
      verdict := Failure(MarshalFailed);
      notes := Notify(messages, verdict);
      return;
    }
    var payload := MarshalBatch(sentAt, Some(messages));
    verdict := Success;
    for i := 0 to ATTEMPTS
      invariant |attempts| == i && AllRefused(attempts) && SamePayload(attempts, payload)
      invariant i > 0 ==> ResolvedBy(attempts, verdict)
      invariant forall j :: 0 <= j < i ==> attempts[j].result == answer(j) && !quitSeen(j)
    {
      var result := answer(i);
      OneMoreAttempt(attempts, Attempt(payload, result));
      attempts := attempts + [Attempt(payload, result)];
      if result.Delivered? {
        verdict := Success;
        notes := Notify(messages, verdict);
        return;
      }
      verdict := Failure(SendFailed(result.code));
      if quitSeen(i) {
        notes := Notify(messages, verdict);
        return;
      }
    }
    notes := Notify(messages, verdict);
  }
}
