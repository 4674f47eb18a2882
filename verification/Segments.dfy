/** Changing who is in a list segment: chunked requests with bounded retries (segments.go). */
module Segments {
  import opened Messages

  const MAX_ROWS := 1000
  const MAX_ATTEMPTS := 3

  /** `encodes` is whether the traits can be written as JSON. */
  datatype Member = Member(userId: string, email: string, phone: string, encodes: bool)

  datatype Rejection = Rejection(list: string, index: int, error: string)

  datatype MembersResult = MembersResult(segmentId: int, added: int, removed: int, notFound: int, rejected: seq<Rejection>)

  datatype Request = Request(segmentId: int, add: seq<Member>, remove: seq<Member>, phoneRegion: string)

  /** The message of a refusal: what the server wrote, or the standard text of the status. */
  datatype Wording = Written(text: string) | StandardText

  datatype Failure =
    | InvalidSegmentId
    | RowsNotEncodable
    | BadUrl
    | NoConnection(cause: int)
    | BodyUnreadable
    | BodyUndecodable
    | RefusedBy(status: int, code: string, message: Wording)
    | Cancelled(after: Failure)

  /** A response body, read as far as the limit: its trimmed text, and what it decodes to. */
  datatype Body = Unreadable | Text(trimmed: string, result: Option<MembersResult>, refusal: Option<Refusal>)
  datatype Refusal = Refusal(error: string, code: string)

  /** What `http.Client.Do` comes back with. */
  datatype Reply = NoReply(cause: int) | Answer(status: int, body: Body)

  /**
   * The outside of a call: the reply to the n-th request, whether the context is done after it,
   * and whether the wait after it is cut short.
   */
  datatype World = World(
    reply: (nat, Request) -> Reply,
    contextDone: nat -> bool,
    waitCut: nat -> bool,
    urlOk: bool)

  // ----- Reading a response -----

  datatype Reading = Reading(result: Option<MembersResult>, retry: bool, error: Option<Failure>)

  function ReadResponse(status: int, body: Body): Reading {
    match body
    case Unreadable => Reading(None, true, Some(BodyUnreadable))
    case Text(trimmed, result, refusal) =>
      if status == 200 then
        if result.Some? then Reading(result, false, None) else Reading(None, false, Some(BodyUndecodable))
      else
        var named := refusal.Some? && refusal.value.error != "";
        var code := if named then refusal.value.code else "";
        var message :=
          if named then Written(refusal.value.error)
          else if trimmed == "" then StandardText else Written(trimmed);
        Reading(None, status == 429 || status == 502 || status == 503 || status == 504,
                Some(RefusedBy(status, code, message)))
  }

  // ----- One request with its retries -----

  /** `log` holds every request that was sent. */
  datatype Posted = Posted(result: Option<MembersResult>, error: Option<Failure>, log: seq<Request>)

  predicate Encodes(req: Request) {
    (forall m :: m in req.add ==> m.encodes) && (forall m :: m in req.remove ==> m.encodes)
  }

  /** A request ends with a result or with an error, never with both and never with neither. */
  function PostFrom(w: World, log: seq<Request>, req: Request, attempt: nat): (p: Posted)
    requires attempt < MAX_ATTEMPTS
    ensures p.result.Some? <==> p.error.None?
    decreases MAX_ATTEMPTS - attempt
  {
    if !w.urlOk then Posted(None, Some(BadUrl), log)
    else
      var n := |log|;
      var last := attempt + 1 >= MAX_ATTEMPTS;
      match w.reply(n, req)
      case NoReply(cause) =>
        if w.contextDone(n) || last then Posted(None, Some(NoConnection(cause)), log + [req])
        else if w.waitCut(n) then Posted(None, Some(Cancelled(NoConnection(cause))), log + [req])
        else PostFrom(w, log + [req], req, attempt + 1)
      case Answer(status, body) =>
        var r := ReadResponse(status, body);
        if !r.retry || last then Posted(r.result, r.error, log + [req])
        else if w.waitCut(n) && r.error.Some? then Posted(None, Some(Cancelled(r.error.value)), log + [req])
        else PostFrom(w, log + [req], req, attempt + 1)
  }

  function PostSpec(w: World, log: seq<Request>, req: Request): (p: Posted)
    ensures p.result.Some? <==> p.error.None?
  {
    if !Encodes(req) then Posted(None, Some(RowsNotEncodable), log) else PostFrom(w, log, req, 0)
  }

  /** `post`: the loop over the attempts. */
  method Post(w: World, log: seq<Request>, req: Request) returns (p: Posted)
    ensures p == PostSpec(w, log, req)
  {
    if !Encodes(req) {
      return Posted(None, Some(RowsNotEncodable), log);
    }
    var sent := log;
    var attempt := 0;
    while true
      invariant attempt < MAX_ATTEMPTS
      invariant PostFrom(w, sent, req, attempt) == PostSpec(w, log, req)
      decreases MAX_ATTEMPTS - attempt
    {
      if !w.urlOk {
        return Posted(None, Some(BadUrl), sent);
      }
      var n := |sent|;
      var reply := w.reply(n, req);
      sent := sent + [req];
      var err: Failure;
      match reply {
        case Answer(status, body) =>
          var r := ReadResponse(status, body);
          if !r.retry || attempt + 1 >= MAX_ATTEMPTS {
            return Posted(r.result, r.error, sent);
          }
          err := r.error.value;
        case NoReply(cause) =>
          if w.contextDone(n) || attempt + 1 >= MAX_ATTEMPTS {
            return Posted(None, Some(NoConnection(cause)), sent);
          }
          err := NoConnection(cause);
      }
      if w.waitCut(n) {
        return Posted(None, Some(Cancelled(err)), sent);
      }
      attempt := attempt + 1;
    }
  }

  // ----- A list in chunks -----

  /** One `AddMembers` or `RemoveMembers` call. */
  datatype Change = Change(segmentId: int, members: seq<Member>, remove: bool, phoneRegion: string)

  function Min(a: nat, b: nat): nat {
    if a < b then a else b
  }

  function ChunkRequest(ch: Change, start: nat): Request
    requires start <= |ch.members|
  {
    var rows := ch.members[start..Min(start + MAX_ROWS, |ch.members|)];
    if ch.remove then Request(ch.segmentId, [], rows, ch.phoneRegion)
    else Request(ch.segmentId, rows, [], ch.phoneRegion)
  }

  /** The rejections of a chunk, at their places in the caller's slice. */
  function Shifted(rejected: seq<Rejection>, start: nat): (r: seq<Rejection>)
    ensures |r| == |rejected|
    ensures forall i :: 0 <= i < |r| ==> r[i] == rejected[i].(index := rejected[i].index + start)
  {
    seq(|rejected|, i requires 0 <= i < |rejected| => rejected[i].(index := rejected[i].index + start))
  }

  function Combined(total: MembersResult, res: MembersResult, start: nat): MembersResult {
    MembersResult(total.segmentId, total.added + res.added, total.removed + res.removed,
                  total.notFound + res.notFound, total.rejected + Shifted(res.rejected, start))
  }

  /** What a call returns, with the requests it sent. */
  datatype WriteOutcome = WriteOutcome(total: MembersResult, error: Option<Failure>, log: seq<Request>)

  function Nothing(segmentId: int): MembersResult {
    MembersResult(segmentId, 0, 0, 0, [])
  }

  /** The chunks from `start` on, after the earlier ones gave `total`. */
  function WriteFrom(w: World, log: seq<Request>, ch: Change, start: nat, total: MembersResult): WriteOutcome
    decreases |ch.members| - start
  {
    if start >= |ch.members| then WriteOutcome(total, None, log)
    else
      var p := PostSpec(w, log, ChunkRequest(ch, start));
      if p.error.Some? then WriteOutcome(total, p.error, p.log)
      else WriteFrom(w, p.log, ch, start + MAX_ROWS, Combined(total, p.result.value, start))
  }

  function WriteSpec(w: World, log: seq<Request>, ch: Change): WriteOutcome {
    if ch.segmentId <= 0 then WriteOutcome(Nothing(ch.segmentId), Some(InvalidSegmentId), log)
    else WriteFrom(w, log, ch, 0, Nothing(ch.segmentId))
  }

  /** `write`: the loop over the chunks. */
  method Write(w: World, ch: Change) returns (total: MembersResult, error: Option<Failure>, log: seq<Request>)
    ensures WriteOutcome(total, error, log) == WriteSpec(w, [], ch)
  {
    total, error, log := Nothing(ch.segmentId), None, [];
    if ch.segmentId <= 0 {
      error := Some(InvalidSegmentId);
      return;
    }
    var start := 0;
    while start < |ch.members|
      invariant 0 <= start && error.None?
      invariant WriteFrom(w, log, ch, start, total) == WriteSpec(w, [], ch)
      decreases |ch.members| - start
    {
      var p := Post(w, log, ChunkRequest(ch, start));
      log := p.log;
      if p.error.Some? {
        error := p.error;
        return;
      }
      var res := p.result.value;
      var shifted: seq<Rejection> := [];
      for i := 0 to |res.rejected|
        invariant shifted == Shifted(res.rejected, start)[..i]
      {
        shifted := shifted + [res.rejected[i].(index := res.rejected[i].index + start)];
      }
      assert shifted == Shifted(res.rejected, start);
      total := MembersResult(total.segmentId, total.added + res.added, total.removed + res.removed,
                             total.notFound + res.notFound, total.rejected + shifted);
      start := start + MAX_ROWS;
    }
  }
}
