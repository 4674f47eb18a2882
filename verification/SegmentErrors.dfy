/** The errors of a call, told from the last reply it got (segments.go:164-274). */
module SegmentErrors {
  import opened Messages
  import opened Segments
  import opened SegmentTheorems
  import opened SegmentRejections

  // ----- What a reply says went wrong -----

  /** The reply explains itself: a JSON object with a non-empty error. */
  predicate NamesError(body: Body) {
    body.Text? && body.refusal.Some? && body.refusal.value.error != ""
  }

  /** The error a request without a result is reported with, judged by its reply alone. */
  predicate Reports(f: Failure, reply: Reply) {
    if reply.NoReply? then f == NoConnection(reply.cause)
    else if reply.body.Unreadable? then f == BodyUnreadable
    else if reply.status == 200 then f == BodyUndecodable
    else
      && f.RefusedBy?
      && f.status == reply.status
      && (NamesError(reply.body) ==>
            f.code == reply.body.refusal.value.code && f.message == Written(reply.body.refusal.value.error))
      && (!NamesError(reply.body) ==> f.code == "")
      && (!NamesError(reply.body) && reply.body.trimmed != "" ==> f.message == Written(reply.body.trimmed))
      && (!NamesError(reply.body) && reply.body.trimmed == "" ==> f.message == StandardText)
  }

  /** After this reply to the `tries`-th try the request would be sent again, if the wait is not cut. */
  predicate Waits(w: World, n: nat, reply: Reply, tries: nat) {
    tries < 3 && Transient(reply) && !(reply.NoReply? && w.contextDone(n))
  }

  /**
   * The error of a request whose tries were numbers `first` to `last` is that of the last reply,
   * wrapped as cancelled exactly when the wait after it was cut.
   */
  predicate Told(w: World, req: Request, first: nat, last: nat, f: Failure) {
    var reply := w.reply(last, req);
    && first <= last
    && !Succeeded(reply)
    && (if Waits(w, last, reply, last - first + 1)
        then w.waitCut(last) && f.Cancelled? && Reports(f.after, reply)
        else Reports(f, reply))
  }

  /** Each of these tries got a transient reply, on which the context had not ended, and its wait was not cut. */
  predicate Repeated(w: World, req: Request, first: nat, last: nat) {
    forall i :: first <= i < last ==> Waits(w, i, w.reply(i, req), i - first + 1) && !w.waitCut(i)
  }

  lemma {:induction false} PostFromTold(w: World, log: seq<Request>, req: Request, attempt: nat, first: nat)
    requires w.urlOk && attempt < MAX_ATTEMPTS && |log| == first + attempt
    requires Repeated(w, req, first, |log|)
    ensures var p := PostFrom(w, log, req, attempt);
            && |log| < |p.log|
            && Repeated(w, req, first, |p.log| - 1)
            && (p.error.Some? ==> Told(w, req, first, |p.log| - 1, p.error.value))
    decreases MAX_ATTEMPTS - attempt
  {
    var n := |log|;
    if attempt + 1 < MAX_ATTEMPTS && Waits(w, n, w.reply(n, req), attempt + 1) && !w.waitCut(n) {
      PostFromTold(w, log + [req], req, attempt + 1, first);
    }
  }

  /**
   * A request whose rows cannot be encoded or whose address is bad is never sent and says so; any
   * other is sent again exactly after transient replies, ended contexts and cut waits apart, and its
   * error is the one its last reply calls for.
   */
  lemma PostTold(w: World, log: seq<Request>, req: Request)
    ensures var p := PostSpec(w, log, req);
            && (!Encodes(req) ==> p == Posted(None, Some(RowsNotEncodable), log))
            && (Encodes(req) && !w.urlOk ==> p == Posted(None, Some(BadUrl), log))
            && (Encodes(req) && w.urlOk ==>
                  && |log| < |p.log|
                  && Repeated(w, req, |log|, |p.log| - 1)
                  && (p.error.Some? ==> Told(w, req, |log|, |p.log| - 1, p.error.value)))
  {
    if Encodes(req) && w.urlOk { PostFromTold(w, log, req, 0, |log|); }
  }

  // ----- The error of a whole call -----

  /** The error of a call, told from the requests it sent and the replies to them. */
  ghost predicate ErrorTold(w: World, ch: Change, log: seq<Request>, f: Failure) {
    var start := Answered(w, log);
    && start < |ch.members|
    && var req := ChunkRequest(ch, start);
    if !Encodes(req) then f == RowsNotEncodable
    else if !w.urlOk then f == BadUrl
    else
      exists first: nat ::
        && first < |log|
        && Answered(w, log[..first]) == start
        && (forall i :: first <= i < |log| ==> log[i] == req)
        && Told(w, req, first, |log| - 1, f)
  }

  lemma {:induction false} WriteTold(w: World, ch: Change, log: seq<Request>)
    requires OnTrack(w, ch, log)
    ensures var r := WriteFrom(w, log, ch, Answered(w, log), Tally(w, ch.segmentId, log));
            r.error.Some? ==> ErrorTold(w, ch, r.log, r.error.value)
    decreases |ch.members| - Answered(w, log)
  {
    hide OnTrack, ChunkRequest, Answered, Tally, Combined, PostFrom, Told, ErrorTold, PostSpec;
    var start := Answered(w, log);
    if start < |ch.members| {
      var req := ChunkRequest(ch, start);
      var p := PostSpec(w, log, req);
      PostAdvances(w, ch, log);
      if p.error.None? { WriteTold(w, ch, p.log); } else { ChunkTold(w, ch, log); }
    }
  }

  /** What `PostTallies` says of a whole `post`. */
  lemma PostAdvances(w: World, ch: Change, log: seq<Request>)
    requires OnTrack(w, ch, log) && Answered(w, log) < |ch.members|
    ensures var start := Answered(w, log);
            var p := PostSpec(w, log, ChunkRequest(ch, start));
            && OnTrack(w, ch, p.log)
            && Answered(w, p.log) == start + (if p.result.Some? then MAX_ROWS else 0)
            && (p.result.Some? ==>
                  Tally(w, ch.segmentId, p.log) == Combined(Tally(w, ch.segmentId, log), p.result.value, start))
  {
    hide OnTrack, ChunkRequest, Answered, Tally, Combined, PostFrom;
    if Encodes(ChunkRequest(ch, Answered(w, log))) { PostTallies(w, ch, log, 0); }
  }

  lemma ChunkTold(w: World, ch: Change, log: seq<Request>)
    requires OnTrack(w, ch, log) && Answered(w, log) < |ch.members|
    requires PostSpec(w, log, ChunkRequest(ch, Answered(w, log))).error.Some?
    ensures var p := PostSpec(w, log, ChunkRequest(ch, Answered(w, log)));
            ErrorTold(w, ch, p.log, p.error.value)
  {
    hide OnTrack, ChunkRequest, Answered, Tally, Combined, PostFrom, Told, PostSpec;
    var req := ChunkRequest(ch, Answered(w, log));
    var p := PostSpec(w, log, req);
    PostAdvances(w, ch, log);
    PostTold(w, log, req);
    PostLogGrows(w, log, req);
  }

  /**
   * The error of a call is that of the first chunk that was not answered: a bad segment id is
   * refused before anything is sent; rows that cannot be encoded and a bad address are reported
   * without a request; otherwise the last reply decides, and a cut wait shows as a cancellation.
   */
  lemma WriteErrorTold(w: World, ch: Change)
    ensures ch.segmentId <= 0 ==>
              WriteSpec(w, [], ch) == WriteOutcome(Nothing(ch.segmentId), Some(InvalidSegmentId), [])
    ensures var r := WriteSpec(w, [], ch);
            ch.segmentId > 0 && r.error.Some? ==> ErrorTold(w, ch, r.log, r.error.value)
  {
    if ch.segmentId > 0 { WriteTold(w, ch, []); }
  }
}
