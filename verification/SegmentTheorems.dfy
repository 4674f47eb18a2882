/** Splitting a list into requests cannot be noticed, and a failed call is an exact prefix of one. */
module SegmentTheorems {
  import opened Messages
  import opened Sequences
  import opened Segments

  function Rows(req: Request): seq<Member> {
    req.add + req.remove
  }

  // ----- How far a call came -----

  /** The first row no request succeeded for, from `start` on. */
  function CoveredFrom(w: World, log: seq<Request>, ch: Change, start: nat, total: MembersResult): (r: nat)
    requires start % MAX_ROWS == 0
    ensures r <= |ch.members| || r <= start
    ensures r % MAX_ROWS == 0 || r == |ch.members|
    ensures Min(start, |ch.members|) <= r
    decreases |ch.members| - start
  {
    if start >= |ch.members| then |ch.members|
    else
      var p := PostSpec(w, log, ChunkRequest(ch, start));
      if p.error.Some? then start
      else CoveredFrom(w, p.log, ch, start + MAX_ROWS, Combined(total, p.result.value, start))
  }

  /** The number of rows the returned total speaks for. */
  function Covered(w: World, ch: Change): nat {
    if ch.segmentId <= 0 then 0 else CoveredFrom(w, [], ch, 0, Nothing(ch.segmentId))
  }

  /** The same call with only the first `n` rows. */
  function FirstRows(ch: Change, n: nat): Change
    requires n <= |ch.members|
  {
    ch.(members := ch.members[..n])
  }

  // ----- A failed call is a prefix -----

  lemma {:induction false} PrefixFrom(w: World, log: seq<Request>, ch: Change, start: nat, total: MembersResult, n: nat)
    requires start % MAX_ROWS == 0 && start <= n <= |ch.members|
    requires n == CoveredFrom(w, log, ch, start, total)
    ensures var all := WriteFrom(w, log, ch, start, total);
            var part := WriteFrom(w, log, FirstRows(ch, n), start, total);
            && part.total == all.total
            && part.error.None?
            && part.log <= all.log
            && (all.error.None? <==> n == |ch.members|)
            && (all.error.Some? ==>
                  var p := PostSpec(w, part.log, ChunkRequest(ch, n)); p.error == all.error && p.log == all.log)
    decreases |ch.members| - start
  {
    hide PostSpec, Combined;
    if start < |ch.members| {
      var p := PostSpec(w, log, ChunkRequest(ch, start));
      if p.error.None? {
        var next := Combined(total, p.result.value, start);
        SameChunk(ch, start, n);
        if start + MAX_ROWS <= |ch.members| {
          PrefixFrom(w, p.log, ch, start + MAX_ROWS, next, n);
        }
      } else {
        PostLogGrows(w, log, ChunkRequest(ch, start));
      }
    }
  }

  /** The chunks before row `n` are the same in the shorter call. */
  lemma SameChunk(ch: Change, start: nat, n: nat)
    requires start < n <= |ch.members|
    requires start + MAX_ROWS <= n || n == |ch.members|
    ensures ChunkRequest(FirstRows(ch, n), start) == ChunkRequest(ch, start)
  {
    var stop := Min(start + MAX_ROWS, |ch.members|);
    SliceOfTake(ch.members, start, stop, n);
  }

  lemma {:induction false} PostFromLogGrows(w: World, log: seq<Request>, req: Request, attempt: nat)
    requires attempt < MAX_ATTEMPTS
    ensures var p := PostFrom(w, log, req, attempt);
            && |log| <= |p.log| <= |log| + MAX_ATTEMPTS - attempt
            && p.log[..|log|] == log
            && (forall i :: |log| <= i < |p.log| ==> p.log[i] == req)
            && (p.error.None? ==> |log| < |p.log|)
    decreases MAX_ATTEMPTS - attempt
  {
    assert (log + [req])[..|log|] == log;
    if attempt + 1 < MAX_ATTEMPTS {
      PostFromLogGrows(w, log + [req], req, attempt + 1);
    }
  }

  /** One `post` sends its request at most three times, and nothing else. */
  lemma PostLogGrows(w: World, log: seq<Request>, req: Request)
    ensures var p := PostSpec(w, log, req);
            && |log| <= |p.log| <= |log| + MAX_ATTEMPTS
            && p.log[..|log|] == log
            && (forall i :: |log| <= i < |p.log| ==> p.log[i] == req)
  {
    if Encodes(req) { PostFromLogGrows(w, log, req, 0); }
  }

  // ----- When a request is sent again -----

  /** The request may succeed if sent again. */
  predicate Transient(reply: Reply) {
    || reply.NoReply?
    || reply.body.Unreadable?
    || (reply.status != 200 && reply.status in {429, 502, 503, 504})
  }

  /** The request was taken and its answer understood. */
  predicate Succeeded(reply: Reply) {
    reply.Answer? && reply.status == 200 && reply.body.Text? && reply.body.result.Some?
  }

  ghost predicate Disciplined(w: World, req: Request, first: nat, p: Posted, attempt: nat)
    requires first < |p.log|
  {
    var last := |p.log| - 1;
    var reply := w.reply(last, req);
    && last - first + attempt < MAX_ATTEMPTS
    && (forall i :: first <= i < last ==> Transient(w.reply(i, req)) && !w.waitCut(i))
    && (p.result.Some? <==> Succeeded(reply))
    && (p.result.Some? ==> p.result == reply.body.result)
    && ((last - first + attempt < MAX_ATTEMPTS - 1 && Transient(reply))
          ==> w.waitCut(last) || (reply.NoReply? && w.contextDone(last)))
  }

  lemma {:induction false} PostFromDiscipline(w: World, log: seq<Request>, req: Request, attempt: nat)
    requires w.urlOk && attempt < MAX_ATTEMPTS
    ensures |log| < |PostFrom(w, log, req, attempt).log|
    ensures Disciplined(w, req, |log|, PostFrom(w, log, req, attempt), attempt)
    decreases MAX_ATTEMPTS - attempt
  {
    if attempt + 1 < MAX_ATTEMPTS { PostFromDiscipline(w, log + [req], req, attempt + 1); }
  }

  /**
   * A request is sent again only after a transient reply and an undisturbed wait, at most twice. It
   * gives a result exactly when the last reply is a success, and gives up early after a transient
   * reply only when the context ends it.
   */
  lemma PostDiscipline(w: World, log: seq<Request>, req: Request)
    requires w.urlOk && Encodes(req)
    ensures |log| < |PostSpec(w, log, req).log|
    ensures Disciplined(w, req, |log|, PostSpec(w, log, req), 0)
  {
    PostFromDiscipline(w, log, req, 0);
  }

  // ----- A failed call, continued -----

  /**
   * When the call fails, some number of whole chunks succeeded: the returned total is what the call
   * would have returned, without an error, for exactly those rows; the error is that of the next
   * chunk's request, and nothing was sent after it.
   */
  lemma FailureIsPrefix(w: World, ch: Change)
    requires ch.segmentId > 0
    ensures var n := Covered(w, ch);
            && n <= |ch.members|
            && var all := WriteSpec(w, [], ch);
               var part := WriteSpec(w, [], FirstRows(ch, n));
               && part.total == all.total
               && part.error.None?
               && part.log <= all.log
               && (all.error.None? <==> n == |ch.members|)
               && (all.error.Some? ==>
                     && n % MAX_ROWS == 0
                     && var p := PostSpec(w, part.log, ChunkRequest(ch, n)); p.error == all.error && p.log == all.log)
  {
    PrefixFrom(w, [], ch, 0, Nothing(ch.segmentId), Covered(w, ch));
  }

  // ----- How many requests -----

  function Chunks(rows: nat): nat {
    (rows + MAX_ROWS - 1) / MAX_ROWS
  }

  lemma {:induction false} RequestsFrom(w: World, log: seq<Request>, ch: Change, start: nat, total: MembersResult)
    requires start <= |ch.members|
    ensures |WriteFrom(w, log, ch, start, total).log| <= |log| + MAX_ATTEMPTS * Chunks(|ch.members| - start)
    decreases |ch.members| - start
  {
    if start < |ch.members| {
      var p := PostSpec(w, log, ChunkRequest(ch, start));
      PostLogGrows(w, log, ChunkRequest(ch, start));
      if p.error.None? && start + MAX_ROWS < |ch.members| {
        RequestsFrom(w, p.log, ch, start + MAX_ROWS, Combined(total, p.result.value, start));
      }
    }
  }

  /** A call makes at most three requests per thousand rows, and none without rows or with a bad id. */
  lemma RequestsBounded(w: World, ch: Change)
    ensures |WriteSpec(w, [], ch).log| <= 3 * ((|ch.members| + 999) / 1000)
    ensures ch.segmentId <= 0 ==> WriteSpec(w, [], ch).log == []
  {
    RequestsFrom(w, [], ch, 0, Nothing(ch.segmentId));
  }

  // ----- Splitting is invisible -----

  /** What a server does with one row. */
  datatype RowAnswer = RowAdded | RowRemoved | RowNotFound | RowRejected(list: string, error: string)

  /** A server's judgement of the rows of one call: the segment, the direction and the region are the call's. */
  type Judge = Member -> RowAnswer

  /** One more row's answer on top of the answer for the rows before it. */
  function Add(res: MembersResult, answer: RowAnswer, index: nat): MembersResult {
    match answer
    case RowAdded => res.(added := res.added + 1)
    case RowRemoved => res.(removed := res.removed + 1)
    case RowNotFound => res.(notFound := res.notFound + 1)
    case RowRejected(list, error) => res.(rejected := res.rejected + [Rejection(list, index, error)])
  }

  /** The answer for a list of rows, computed row by row. */
  function Summary(judge: Judge, segmentId: int, rows: seq<Member>): MembersResult {
    if rows == [] then Nothing(segmentId)
    else
      var n := |rows| - 1;
      Add(Summary(judge, segmentId, rows[..n]), judge(rows[n]), n)
  }

  /** A request for rows of this call: its segment, its region, its direction. */
  predicate Belongs(ch: Change, req: Request) {
    && req.segmentId == ch.segmentId
    && req.phoneRegion == ch.phoneRegion
    && (if ch.remove then req.add == [] else req.remove == [])
  }

  /** The call's first `n` rows in one request, however many they are. */
  function Unlimited(ch: Change, n: nat): Request
    requires n <= |ch.members|
  {
    var rows := ch.members[..n];
    if ch.remove then Request(ch.segmentId, [], rows, ch.phoneRegion)
    else Request(ch.segmentId, rows, [], ch.phoneRegion)
  }

  /** Every successful answer to a request of this call is the row-by-row one, whatever segment id it names. */
  ghost predicate AnswersByRow(w: World, judge: Judge, ch: Change) {
    forall n, req :: Belongs(ch, req) && Succeeded(w.reply(n, req)) ==> IsSummary(judge, w.reply(n, req).body.result.value, req)
  }

  predicate IsSummary(judge: Judge, res: MembersResult, req: Request) {
    res == Summary(judge, res.segmentId, Rows(req))
  }

  /** A server for all calls: its judgement depends on the segment, the row, the direction and the region. */
  type Service = (int, Member, bool, string) -> RowAnswer

  function JudgeOf(service: Service, ch: Change): Judge {
    m => service(ch.segmentId, m, ch.remove, ch.phoneRegion)
  }

  /** Whatever the call, the successful answers to its requests are those of the service. */
  ghost predicate Serves(w: World, service: Service) {
    forall ch :: AnswersByRow(w, JudgeOf(service, ch), ch)
  }

  lemma CombinedAdd(total: MembersResult, res: MembersResult, answer: RowAnswer, start: nat, index: nat)
    ensures Combined(total, Add(res, answer, index), start) == Add(Combined(total, res, start), answer, start + index)
  {
    if answer.RowRejected? {
      var r := Rejection(answer.list, index, answer.error);
      assert Shifted(res.rejected + [r], start) == Shifted(res.rejected, start) + [r.(index := index + start)];
      Associative(total.rejected, Shifted(res.rejected, start), [r.(index := index + start)]);
    }
  }

  /** The summary of two lists in a row is the combination of their summaries. */
  lemma {:induction false} SummaryConcat(judge: Judge, id: int, id2: int, a: seq<Member>, b: seq<Member>)
    ensures Summary(judge, id, a + b)
            == Combined(Summary(judge, id, a), Summary(judge, id2, b), |a|)
  {
    if b == [] {
      assert a + b == a;
      var sa := Summary(judge, id, a);
      assert sa.rejected + Shifted([], |a|) == sa.rejected;
      SummaryId(judge, id, a);
    } else {
      var n := |b| - 1;
      InitOfConcat(a, b);
      SummaryConcat(judge, id, id2, a, b[..n]);
      CombinedAdd(Summary(judge, id, a), Summary(judge, id2, b[..n]),
                  judge(b[n]), |a|, n);
    }
  }

  lemma {:induction false} SummaryId(judge: Judge, id: int, rows: seq<Member>)
    ensures Summary(judge, id, rows).segmentId == id
  {
    if rows != [] { SummaryId(judge, id, rows[..|rows| - 1]); }
  }

  lemma {:induction false} PostFromAnswers(w: World, judge: Judge, ch: Change, log: seq<Request>, req: Request, attempt: nat)
    requires AnswersByRow(w, judge, ch) && Belongs(ch, req) && attempt < MAX_ATTEMPTS
    ensures var p := PostFrom(w, log, req, attempt);
            p.result.Some? ==> IsSummary(judge, p.result.value, req)
    decreases MAX_ATTEMPTS - attempt
  {
    assert w.reply(|log|, req) == w.reply(|log|, req);
    if attempt + 1 < MAX_ATTEMPTS { PostFromAnswers(w, judge, ch, log + [req], req, attempt + 1); }
  }

  lemma PostAnswers(w: World, judge: Judge, ch: Change, log: seq<Request>, req: Request)
    requires AnswersByRow(w, judge, ch) && Belongs(ch, req)
    ensures var p := PostSpec(w, log, req);
            p.result.Some? ==> IsSummary(judge, p.result.value, req)
  {
    if Encodes(req) { PostFromAnswers(w, judge, ch, log, req, 0); }
  }

  lemma {:induction false} SplitFrom(w: World, judge: Judge, log: seq<Request>, ch: Change, start: nat)
    requires AnswersByRow(w, judge, ch) && start % MAX_ROWS == 0 && start <= |ch.members|
    ensures var total := Summary(judge, ch.segmentId, ch.members[..start]);
            var n := CoveredFrom(w, log, ch, start, total);
            && n <= |ch.members|
            && WriteFrom(w, log, ch, start, total).total
               == Summary(judge, ch.segmentId, ch.members[..n])
    decreases |ch.members| - start
  {
    hide Summary, Combined, PostSpec, AnswersByRow;
    if start < |ch.members| {
      var req := ChunkRequest(ch, start);
      var p := PostSpec(w, log, req);
      if p.error.None? {
        PostAnswers(w, judge, ch, log, req);
        ChunkDone(w, judge, ch, start, p.result.value);
        if start + MAX_ROWS <= |ch.members| { SplitFrom(w, judge, p.log, ch, start + MAX_ROWS); }
      }
    }
  }

  lemma ChunkDone(w: World, judge: Judge, ch: Change, start: nat, res: MembersResult)
    requires start < |ch.members|
    requires IsSummary(judge, res, ChunkRequest(ch, start))
    ensures var stop := Min(start + MAX_ROWS, |ch.members|);
            Combined(Summary(judge, ch.segmentId, ch.members[..start]), res, start)
            == Summary(judge, ch.segmentId, ch.members[..stop])
  {
    var stop := Min(start + MAX_ROWS, |ch.members|);
    var rows := ch.members[start..stop];
    assert Rows(ChunkRequest(ch, start)) == rows;
    SummaryConcat(judge, ch.segmentId, res.segmentId, ch.members[..start], rows);
    TakeThenSlice(ch.members, start, stop);
  }

  lemma {:induction false} SummaryRenamed(judge: Judge, id: int, id2: int, rows: seq<Member>)
    ensures Summary(judge, id, rows) == Summary(judge, id2, rows).(segmentId := id)
  {
    if rows != [] { SummaryRenamed(judge, id, id2, rows[..|rows| - 1]); }
  }

  /**
   * Splitting is invisible: with a server that judges the call's rows one by one, the call returns
   * the row-by-row answer for the covered rows, with the indexes of the caller's slice, and that is
   * what one request with all these rows is answered; without an error all rows are covered.
   */
  lemma SplittingIsInvisible(w: World, judge: Judge, ch: Change)
    requires AnswersByRow(w, judge, ch) && ch.segmentId > 0
    ensures var n := Covered(w, ch); var total := WriteSpec(w, [], ch).total;
            && n <= |ch.members|
            && total == Summary(judge, ch.segmentId, ch.members[..n])
            && (forall k :: Succeeded(w.reply(k, Unlimited(ch, n))) ==>
                  total == w.reply(k, Unlimited(ch, n)).body.result.value.(segmentId := ch.segmentId))
    ensures WriteSpec(w, [], ch).error.None? ==>
              WriteSpec(w, [], ch).total == Summary(judge, ch.segmentId, ch.members)
  {
    var n := Covered(w, ch);
    assert ch.members[..0] == [];
    SplitFrom(w, judge, [], ch, 0);
    FailureIsPrefix(w, ch);
    assert ch.members[..|ch.members|] == ch.members;
    forall k | Succeeded(w.reply(k, Unlimited(ch, n)))
      ensures WriteSpec(w, [], ch).total == w.reply(k, Unlimited(ch, n)).body.result.value.(segmentId := ch.segmentId)
    {
      UnlimitedAnswer(w, judge, ch, n, k);
    }
  }

  lemma UnlimitedAnswer(w: World, judge: Judge, ch: Change, n: nat, k: nat)
    requires AnswersByRow(w, judge, ch) && n <= |ch.members| && Succeeded(w.reply(k, Unlimited(ch, n)))
    ensures w.reply(k, Unlimited(ch, n)).body.result.value.(segmentId := ch.segmentId)
            == Summary(judge, ch.segmentId, ch.members[..n])
  {
    var res := w.reply(k, Unlimited(ch, n)).body.result.value;
    assert IsSummary(judge, res, Unlimited(ch, n));
    assert Rows(Unlimited(ch, n)) == ch.members[..n];
    SummaryRenamed(judge, ch.segmentId, res.segmentId, ch.members[..n]);
  }

  lemma {:induction false} SummaryCongruent(j1: Judge, j2: Judge, id: int, rows: seq<Member>)
    requires forall m :: j1(m) == j2(m)
    ensures Summary(j1, id, rows) == Summary(j2, id, rows)
  {
    if rows != [] { SummaryCongruent(j1, j2, id, rows[..|rows| - 1]); }
  }

  /** The server that answers every request at once, with the service's judgement of its rows. */
  function ServerFor(service: Service): World {
    World((n, req: Request) =>
            Answer(200, Text("", Some(Summary(m => service(req.segmentId, m, req.add == [], req.phoneRegion),
                                              req.segmentId, Rows(req))), None)),
          n => false, n => false, true)
  }

  /** Any service has a server, also one that tells removals from additions and segments apart. */
  lemma EveryServiceHasAServer(service: Service)
    ensures Serves(ServerFor(service), service)
    ensures forall n, req :: Succeeded(ServerFor(service).reply(n, req))
  {
    var w := ServerFor(service);
    forall ch, n: nat, req | Belongs(ch, req)
      ensures IsSummary(JudgeOf(service, ch), w.reply(n, req).body.result.value, req)
    {
      if Rows(req) != [] {
        SummaryCongruent(m => service(req.segmentId, m, req.add == [], req.phoneRegion), JudgeOf(service, ch),
                         req.segmentId, Rows(req));
      }
      SummaryId(JudgeOf(service, ch), req.segmentId, Rows(req));
    }
  }
}
