/** The rejections of a call: what they count, where they come from, and which rows they name. */
module SegmentRejections {
  import opened Segments
  import opened SegmentTheorems

  // ----- Counts and indexes -----

  /** The counts and rejections account for `rows` rows, the rejected ones named in increasing order. */
  predicate Proper(res: MembersResult, rows: nat) {
    && res.added + res.removed + res.notFound + |res.rejected| == rows
    && (forall i :: 0 <= i < |res.rejected| ==> 0 <= res.rejected[i].index < rows)
    && (forall i, j :: 0 <= i < j < |res.rejected| ==> res.rejected[i].index < res.rejected[j].index)
  }

  /** Every successful answer to a request of this call accounts for the request's rows. */
  ghost predicate AnswersProperly(w: World, ch: Change) {
    forall n, req :: Belongs(ch, req) && Succeeded(w.reply(n, req)) ==> Proper(w.reply(n, req).body.result.value, |Rows(req)|)
  }

  lemma CombinedIsProper(total: MembersResult, res: MembersResult, start: nat, rows: nat)
    requires Proper(total, start) && Proper(res, rows)
    ensures Proper(Combined(total, res, start), start + rows)
  {
    var all := Combined(total, res, start).rejected;
    var n := |total.rejected|;
    forall i, j | 0 <= i < j < |all| ensures all[i].index < all[j].index {
      if j < n {
        assert all[i] == total.rejected[i] && all[j] == total.rejected[j];
      } else if i < n {
        assert all[i] == total.rejected[i] && all[j].index == res.rejected[j - n].index + start;
      } else {
        assert all[i].index == res.rejected[i - n].index + start && all[j].index == res.rejected[j - n].index + start;
      }
    }
  }

  lemma {:induction false} PostFromIsProper(w: World, ch: Change, log: seq<Request>, req: Request, attempt: nat)
    requires AnswersProperly(w, ch) && Belongs(ch, req) && attempt < MAX_ATTEMPTS
    ensures var p := PostFrom(w, log, req, attempt); p.result.Some? ==> Proper(p.result.value, |Rows(req)|)
    decreases MAX_ATTEMPTS - attempt
  {
    assert w.reply(|log|, req) == w.reply(|log|, req);
    if attempt + 1 < MAX_ATTEMPTS { PostFromIsProper(w, ch, log + [req], req, attempt + 1); }
  }

  /** A chunk's result accounts for the chunk's rows. */
  lemma ChunkIsProper(w: World, ch: Change, log: seq<Request>, start: nat)
    requires AnswersProperly(w, ch) && start < |ch.members|
    ensures var p := PostSpec(w, log, ChunkRequest(ch, start));
            p.result.Some? ==> Proper(p.result.value, Min(start + MAX_ROWS, |ch.members|) - start)
  {
    hide PostFrom, Proper, AnswersProperly;
    var req := ChunkRequest(ch, start);
    assert |Rows(req)| == Min(start + MAX_ROWS, |ch.members|) - start;
    PostFromIsProper(w, ch, log, req, 0);
  }

  lemma {:induction false} ProperFrom(w: World, log: seq<Request>, ch: Change, start: nat, total: MembersResult)
    requires AnswersProperly(w, ch) && start % MAX_ROWS == 0 && start <= |ch.members|
    requires Proper(total, start)
    ensures Proper(WriteFrom(w, log, ch, start, total).total, CoveredFrom(w, log, ch, start, total))
    decreases |ch.members| - start
  {
    hide PostSpec, Proper, Combined, AnswersProperly;
    if start < |ch.members| {
      var p := PostSpec(w, log, ChunkRequest(ch, start));
      if p.error.None? {
        ChunkIsProper(w, ch, log, start);
        CombinedIsProper(total, p.result.value, start, Min(start + MAX_ROWS, |ch.members|) - start);
        if start + MAX_ROWS <= |ch.members| {
          ProperFrom(w, p.log, ch, start + MAX_ROWS, Combined(total, p.result.value, start));
        }
      }
    }
  }

  // ----- Which rows the rejections name -----

  /** How many rows the successful answers to these requests speak for, the last chunk counted in full. */
  function Answered(w: World, log: seq<Request>): nat {
    if log == [] then 0
    else
      var n := |log| - 1;
      Answered(w, log[..n]) + (if Succeeded(w.reply(n, log[n])) then MAX_ROWS else 0)
  }

  /** The successful answers to these requests, added up. */
  function Tally(w: World, id: int, log: seq<Request>): MembersResult {
    if log == [] then Nothing(id)
    else
      var n := |log| - 1;
      var before := Tally(w, id, log[..n]);
      if Succeeded(w.reply(n, log[n]))
      then Combined(before, w.reply(n, log[n]).body.result.value, Answered(w, log[..n])) else before
  }

  /** Every request asks for the chunk that begins where the answered ones end. */
  ghost predicate OnTrack(w: World, ch: Change, log: seq<Request>) {
    forall k :: 0 <= k < |log| ==>
      Answered(w, log[..k]) < |ch.members| && log[k] == ChunkRequest(ch, Answered(w, log[..k]))
  }

  lemma OneMoreRequest(w: World, ch: Change, log: seq<Request>)
    requires OnTrack(w, ch, log) && Answered(w, log) < |ch.members|
    ensures var req := ChunkRequest(ch, Answered(w, log));
            var reply := w.reply(|log|, req);
            && OnTrack(w, ch, log + [req])
            && Answered(w, log + [req]) == Answered(w, log) + (if Succeeded(reply) then MAX_ROWS else 0)
            && Tally(w, ch.segmentId, log + [req])
               == (if Succeeded(reply) then Combined(Tally(w, ch.segmentId, log), reply.body.result.value, Answered(w, log))
                   else Tally(w, ch.segmentId, log))
  {
    var log' := log + [ChunkRequest(ch, Answered(w, log))];
    assert log'[..|log|] == log;
    forall k | 0 <= k < |log| ensures log'[..k] == log[..k] && log'[k] == log[k] {
    }
  }

  lemma {:induction false} PostTallies(w: World, ch: Change, log: seq<Request>, attempt: nat)
    requires OnTrack(w, ch, log) && Answered(w, log) < |ch.members| && attempt < MAX_ATTEMPTS
    ensures var start := Answered(w, log);
            var p := PostFrom(w, log, ChunkRequest(ch, start), attempt);
            && OnTrack(w, ch, p.log)
            && Answered(w, p.log) == start + (if p.result.Some? then MAX_ROWS else 0)
            && Tally(w, ch.segmentId, p.log)
               == (if p.result.Some? then Combined(Tally(w, ch.segmentId, log), p.result.value, start)
                   else Tally(w, ch.segmentId, log))
    decreases MAX_ATTEMPTS - attempt
  {
    hide OnTrack, ChunkRequest, Answered, Tally, Combined;
    var req := ChunkRequest(ch, Answered(w, log));
    OneMoreRequest(w, ch, log);
    if attempt + 1 < MAX_ATTEMPTS && !Succeeded(w.reply(|log|, req)) {
      PostTallies(w, ch, log + [req], attempt + 1);
    }
  }

  lemma {:induction false} WriteTallies(w: World, ch: Change, log: seq<Request>)
    requires OnTrack(w, ch, log)
    ensures var r := WriteFrom(w, log, ch, Answered(w, log), Tally(w, ch.segmentId, log));
            && OnTrack(w, ch, r.log)
            && r.total == Tally(w, ch.segmentId, r.log)
            && (r.error.None? <==> Answered(w, r.log) >= |ch.members|)
    decreases |ch.members| - Answered(w, log)
  {
    hide OnTrack, ChunkRequest, Answered, Tally, Combined, PostFrom;
    var start := Answered(w, log);
    if start < |ch.members| {
      var req := ChunkRequest(ch, start);
      if Encodes(req) { PostTallies(w, ch, log, 0); }
      var p := PostSpec(w, log, req);
      if p.error.None? { WriteTallies(w, ch, p.log); }
    }
  }

  /**
   * The requests a call sent account for it exactly, whatever the server: each asks for the chunk
   * that begins where the answered ones end, the total is the sum of the successful answers, and
   * there is no error exactly when they cover every row.
   */
  lemma TotalIsTally(w: World, ch: Change)
    requires ch.segmentId > 0
    ensures var r := WriteSpec(w, [], ch);
            && OnTrack(w, ch, r.log)
            && r.total == Tally(w, ch.segmentId, r.log)
            && (r.error.None? <==> Answered(w, r.log) >= |ch.members|)
  {
    WriteTallies(w, ch, []);
  }

  /** Every request holds between one and a thousand of the rows, and a thousand unless it reaches the last row. */
  lemma RequestsAreFull(w: World, ch: Change, k: nat)
    requires ch.segmentId > 0 && k < |WriteSpec(w, [], ch).log|
    ensures var log := WriteSpec(w, [], ch).log;
            var start := Answered(w, log[..k]);
            && start < |ch.members|
            && 1 <= |Rows(log[k])| <= 1000 && start + |Rows(log[k])| <= |ch.members|
            && Rows(log[k]) == ch.members[start..start + |Rows(log[k])|]
            && (|Rows(log[k])| < 1000 ==> start + |Rows(log[k])| == |ch.members|)
  {
    TotalIsTally(w, ch);
    var log := WriteSpec(w, [], ch).log;
    var start := Answered(w, log[..k]);
    assert Rows(ChunkRequest(ch, start)) == ch.members[start..Min(start + MAX_ROWS, |ch.members|)];
  }

  /**
   * `r` is rejection `j` in the successful answer to request `k`, which was for the chunk at
   * `start`: it says the same, at the caller's index, and that index names the row the answer named.
   */
  ghost predicate Names(w: World, ch: Change, log: seq<Request>, r: Rejection, k: nat, j: nat, start: nat) {
    && k < |log| && start <= |ch.members|
    && log[k] == ChunkRequest(ch, start)
    && Succeeded(w.reply(k, log[k]))
    && var rejected := w.reply(k, log[k]).body.result.value.rejected;
    && j < |rejected|
    && r == rejected[j].(index := rejected[j].index + start)
    && (0 <= rejected[j].index < |Rows(log[k])| ==>
          r.index < |ch.members| && ch.members[r.index] == Rows(log[k])[rejected[j].index])
  }

  /** The row at `i` of a chunk is the caller's row at `start + i`. */
  lemma ChunkRow(ch: Change, start: nat, i: nat)
    requires start <= |ch.members| && i < |Rows(ChunkRequest(ch, start))|
    ensures start + i < |ch.members|
    ensures ch.members[start + i] == Rows(ChunkRequest(ch, start))[i]
  {
    assert Rows(ChunkRequest(ch, start)) == ch.members[start..Min(start + MAX_ROWS, |ch.members|)];
  }

  lemma NamesHere(w: World, ch: Change, log: seq<Request>, k: nat, j: nat)
    requires OnTrack(w, ch, log) && k < |log| && Succeeded(w.reply(k, log[k]))
    requires j < |w.reply(k, log[k]).body.result.value.rejected|
    ensures var r := w.reply(k, log[k]).body.result.value.rejected[j];
            var start := Answered(w, log[..k]);
            Names(w, ch, log, r.(index := r.index + start), k, j, start)
  {
    var start := Answered(w, log[..k]);
    var r := w.reply(k, log[k]).body.result.value.rejected[j];
    if 0 <= r.index < |Rows(log[k])| { ChunkRow(ch, start, r.index); }
  }

  lemma NamesInLonger(w: World, ch: Change, log: seq<Request>, n: nat, r: Rejection, k: nat, j: nat, start: nat)
    requires n <= |log| && Names(w, ch, log[..n], r, k, j, start)
    ensures Names(w, ch, log, r, k, j, start)
  {
    assert log[..n][k] == log[k];
  }

  lemma TallyLast(w: World, id: int, log: seq<Request>)
    requires log != []
    ensures var n := |log| - 1;
            Tally(w, id, log).rejected
            == Tally(w, id, log[..n]).rejected
               + (if Succeeded(w.reply(n, log[n]))
                  then Shifted(w.reply(n, log[n]).body.result.value.rejected, Answered(w, log[..n])) else [])
  {
  }

  /** Every combined rejection is one a server made, and names the same row. */
  lemma {:induction false} RejectionNamed(w: World, ch: Change, log: seq<Request>, i: nat) returns (k: nat, j: nat, start: nat)
    requires OnTrack(w, ch, log) && i < |Tally(w, ch.segmentId, log).rejected|
    ensures Names(w, ch, log, Tally(w, ch.segmentId, log).rejected[i], k, j, start)
  {
    hide Names, ChunkRequest, OnTrack, Answered, Combined;
    var n := |log| - 1;
    TallyLast(w, ch.segmentId, log);
    var before := Tally(w, ch.segmentId, log[..n]);
    TrackedBefore(w, ch, log, n);
    if i < |before.rejected| {
      k, j, start := RejectionNamed(w, ch, log[..n], i);
      NamesInLonger(w, ch, log, n, before.rejected[i], k, j, start);
    } else {
      k, j, start := n, i - |before.rejected|, Answered(w, log[..n]);
      NamesHere(w, ch, log, k, j);
    }
  }

  lemma TrackedBefore(w: World, ch: Change, log: seq<Request>, n: nat)
    requires OnTrack(w, ch, log) && n <= |log|
    ensures OnTrack(w, ch, log[..n])
  {
    forall k | 0 <= k < n ensures log[..n][..k] == log[..k] && log[..n][k] == log[k] {
    }
  }

  /** No rejection a server made is missing. */
  lemma {:induction false} RejectionKept(w: World, ch: Change, log: seq<Request>, k: nat, j: nat) returns (i: nat)
    requires OnTrack(w, ch, log) && k < |log| && Succeeded(w.reply(k, log[k]))
    requires j < |w.reply(k, log[k]).body.result.value.rejected|
    ensures i < |Tally(w, ch.segmentId, log).rejected|
    ensures Names(w, ch, log, Tally(w, ch.segmentId, log).rejected[i], k, j, Answered(w, log[..k]))
  {
    hide Names, ChunkRequest, OnTrack, Answered, Tally, Combined;
    var n := |log| - 1;
    TallyLast(w, ch.segmentId, log);
    var before := Tally(w, ch.segmentId, log[..n]);
    TrackedBefore(w, ch, log, n);
    if k < n {
      assert log[..n][k] == log[k] && log[..n][..k] == log[..k];
      i := RejectionKept(w, ch, log[..n], k, j);
      NamesInLonger(w, ch, log, n, before.rejected[i], k, j, Answered(w, log[..k]));
    } else {
      i := |before.rejected| + j;
      NamesHere(w, ch, log, k, j);
    }
  }

  /** Some successful answer made this rejection. */
  ghost predicate Named(w: World, ch: Change, log: seq<Request>, r: Rejection) {
    exists k: nat, j: nat, start: nat :: Names(w, ch, log, r, k, j, start)
  }

  /** Rejection `j` of a successful answer to request `k` is among these. */
  ghost predicate KeptAmong(w: World, ch: Change, log: seq<Request>, all: seq<Rejection>, k: nat, j: nat) {
    exists i: nat, start: nat :: i < |all| && Names(w, ch, log, all[i], k, j, start)
  }

  /** Request `k` was answered with at least `j + 1` rejections. */
  predicate Rejects(w: World, log: seq<Request>, k: nat, j: nat) {
    && k < |log|
    && Succeeded(w.reply(k, log[k]))
    && j < |w.reply(k, log[k]).body.result.value.rejected|
  }

  /**
   * The combined rejections are exactly those the server's successful answers made, whatever the
   * server: each one comes from one of them and, at the caller's index, names the row it named
   * there; and none is missing.
   */
  lemma RejectionsNameRows(w: World, ch: Change)
    requires ch.segmentId > 0
    ensures var r := WriteSpec(w, [], ch);
            && (forall i :: 0 <= i < |r.total.rejected| ==> Named(w, ch, r.log, r.total.rejected[i]))
            && (forall k: nat, j: nat :: Rejects(w, r.log, k, j) ==> KeptAmong(w, ch, r.log, r.total.rejected, k, j))
  {
    hide Names, OnTrack, Tally, Answered;
    var r := WriteSpec(w, [], ch);
    TotalIsTally(w, ch);
    forall i | 0 <= i < |r.total.rejected| ensures Named(w, ch, r.log, r.total.rejected[i]) {
      var k, j, start := RejectionNamed(w, ch, r.log, i);
    }
    forall k: nat, j: nat | Rejects(w, r.log, k, j) ensures KeptAmong(w, ch, r.log, r.total.rejected, k, j) {
      var i := RejectionKept(w, ch, r.log, k, j);
    }
  }

  /** As `Named`, and the row is one of the request's, so that both indexes name it. */
  ghost predicate NamedRow(w: World, ch: Change, log: seq<Request>, r: Rejection) {
    exists k: nat, j: nat, start: nat ::
      && Names(w, ch, log, r, k, j, start)
      && 0 <= w.reply(k, log[k]).body.result.value.rejected[j].index < |Rows(log[k])|
  }

  lemma ProperNames(w: World, ch: Change, log: seq<Request>, r: Rejection)
    requires AnswersProperly(w, ch) && Named(w, ch, log, r)
    ensures NamedRow(w, ch, log, r)
  {
    var k: nat, j: nat, start: nat :| Names(w, ch, log, r, k, j, start);
    assert Belongs(ch, log[k]) && Proper(w.reply(k, log[k]).body.result.value, |Rows(log[k])|);
  }

  /**
   * If every answer accounts for its rows, the total accounts for all covered rows: the counts add
   * up, and the rejected indexes are increasing, within the caller's slice, and name the same rows
   * as in the answers they come from.
   */
  lemma IndexesConserved(w: World, ch: Change)
    requires AnswersProperly(w, ch) && ch.segmentId > 0
    ensures var r := WriteSpec(w, [], ch);
            && Proper(r.total, Covered(w, ch))
            && (r.error.None? ==> Proper(r.total, |ch.members|))
            && (forall i :: 0 <= i < |r.total.rejected| ==> NamedRow(w, ch, r.log, r.total.rejected[i]))
  {
    hide Named, NamedRow, AnswersProperly;
    var r := WriteSpec(w, [], ch);
    assert Proper(Nothing(ch.segmentId), 0);
    ProperFrom(w, [], ch, 0, Nothing(ch.segmentId));
    FailureIsPrefix(w, ch);
    RejectionsNameRows(w, ch);
    forall i | 0 <= i < |r.total.rejected| ensures NamedRow(w, ch, r.log, r.total.rejected[i]) {
      ProperNames(w, ch, r.log, r.total.rejected[i]);
    }
  }
}
