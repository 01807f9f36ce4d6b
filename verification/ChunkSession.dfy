/** RedisChunkSessionService for one upload: two sets of chunk numbers, the session hash, and a progress
    hash that two Lua scripts keep in step. Division is exact; the scripts are atomic. */
module ChunkSession {
  import opened Options

  /** The session hash. A batch update on a missing session creates a hash without `totalChunks`. */
  datatype Session = Session(totalChunks: Option<nat>, status: string, lastError: string)

  /** The progress hash. The scripts never write its `totalChunks`, only createSession does. */
  datatype Progress = Progress(totalChunks: Option<nat>, completed: nat, failed: Option<nat>, percentage: nat)

  datatype State = State(session: Option<Session>, uploaded: set<nat>, failed: set<nat>, progress: Option<Progress>)

  datatype Outcome = Success | InvalidChunk | SessionNotFound | ScriptError | InvalidSession
  datatype Reply = Reply(state: State, outcome: Outcome)

  // ---------------------------------------------------------------- operations

  function Ceil(a: nat, b: nat): nat
    requires b > 0
  {
    (a + b - 1) / b
  }

  /** The size checks of createSession. */
  predicate ValidSizes(totalSize: int, chunkSize: int, totalChunks: int) {
    && totalSize > 0 && chunkSize > 0 && totalChunks > 0
    && -1 <= totalChunks - Ceil(totalSize, chunkSize) <= 1
  }

  function CreateSession(s: State, totalSize: int, chunkSize: int, totalChunks: int): Reply {
    if !ValidSizes(totalSize, chunkSize, totalChunks) then Reply(s, InvalidSession)
    else
      var staleFailed := if s.progress.Some? then s.progress.value.failed else None;
      Reply(State(Some(Session(Some(totalChunks), "pending", "")), {}, {},
                  Some(Progress(Some(totalChunks), 0, staleFailed, 0))), Success)
  }

  /** floor(count / total * 100). */
  function Percentage(count: nat, total: nat): nat {
    if total == 0 then 0 else 100 * count / total
  }

  function ProgressTotal(s: State): Option<nat> {
    if s.progress.Some? then s.progress.value.totalChunks else None
  }

  function ProgressFailed(s: State): Option<nat> {
    if s.progress.Some? then s.progress.value.failed else None
  }

  /** The first script. When the session hash has no chunk total, the division fails after the sets and the
      status have changed. */
  function MarkCompleted(s: State, n: int): Reply {
    if n < 0 then Reply(s, InvalidChunk)
    else if s.session.None? then Reply(s, SessionNotFound)
    else
      var uploaded := s.uploaded + {n};
      var t := s.(session := Some(s.session.value.(status := "uploading")), uploaded := uploaded, failed := s.failed - {n});
      if s.session.value.totalChunks.None? then Reply(t, ScriptError)
      else
        var total := s.session.value.totalChunks.value;
        Reply(t.(progress := Some(Progress(ProgressTotal(s), |uploaded|, ProgressFailed(s), Percentage(|uploaded|, total)))),
              Success)
  }

  /** The second script, which also records the failed count and, if given, the error. */
  function MarkFailed(s: State, n: int, error: string): Reply {
    if n < 0 then Reply(s, InvalidChunk)
    else if s.session.None? then Reply(s, SessionNotFound)
    else
      var uploaded, failed := s.uploaded - {n}, s.failed + {n};
      var session := if error == "" then s.session.value else s.session.value.(lastError := error);
      var t := s.(session := Some(session), uploaded := uploaded, failed := failed);
      if session.totalChunks.None? then Reply(t, ScriptError)
      else
        Reply(t.(progress := Some(Progress(ProgressTotal(s), |uploaded|, Some(|failed|),
                                           Percentage(|uploaded|, session.totalChunks.value)))),
              Success)
  }

  /** batchUpdateChunks: the sets only, and without looking for the session. */
  function BatchUpdate(s: State, completed: seq<nat>, failed: seq<nat>): State {
    State(Some(if s.session.Some? then s.session.value else Session(None, "", "")),
          (s.uploaded + Elements(completed)) - Elements(failed),
          (s.failed - Elements(completed)) + Elements(failed),
          s.progress)
  }

  function Elements(chunks: seq<nat>): set<nat> {
    set n | n in chunks
  }

  /** getProgress: the progress hash, and the failed set. */
  datatype Report = Report(totalChunks: nat, completed: nat, failed: set<nat>, percentage: nat, isComplete: bool)

  function GetProgress(s: State): Report {
    var total := if ProgressTotal(s).Some? then ProgressTotal(s).value else 0;
    var completed := if s.progress.Some? then s.progress.value.completed else 0;
    var percentage := if s.progress.Some? then s.progress.value.percentage else 0;
    Report(total, completed, s.failed, percentage, completed == total && total > 0)
  }

  function TotalChunks(s: State): nat {
    if s.session.Some? && s.session.value.totalChunks.Some? then s.session.value.totalChunks.value else 0
  }

  predicate IsSessionComplete(s: State) {
    TotalChunks(s) > 0 && |s.uploaded| == TotalChunks(s)
  }

  /** The `progress` field of getSessionProgress: Math.round, which rounds halves up. A hash without upload
      id, as a batch leaves it, reads as no session. */
  function SessionProgress(s: State): Option<nat> {
    if s.session.None? || s.session.value.totalChunks.None? then None
    else Some(if TotalChunks(s) == 0 then 0 else (200 * |s.uploaded| + TotalChunks(s)) / (2 * TotalChunks(s)))
  }

  // ---------------------------------------------------------------- runs of the scripts

  datatype Event = CompletedE(n: int) | FailedE(n: int, error: string) | ProgressExpiresE

  function Step(s: State, e: Event): State {
    match e
    case CompletedE(n) => MarkCompleted(s, n).state
    case FailedE(n, error) => MarkFailed(s, n, error).state
    case ProgressExpiresE => s.(progress := None)
  }

  function After(s: State, events: seq<Event>): State
    decreases |events|
  {
    if events == [] then s else After(Step(s, events[0]), events[1..])
  }

  predicate InRange(e: Event, total: nat) {
    e.CompletedE? ==> e.n < total
  }

  /** Sets, hashes and session agree on an upload of `total` chunks. */
  ghost predicate Agree(s: State, total: nat) {
    && total > 0
    && s.session.Some? && s.session.value.totalChunks == Some(total)
    && s.uploaded !! s.failed
    && (forall n :: n in s.uploaded ==> n < total)
    && (s.progress.Some? ==>
          && s.progress.value.completed == |s.uploaded|
          && s.progress.value.percentage == Percentage(|s.uploaded|, total)
          && (s.progress.value.totalChunks.Some? ==> s.progress.value.totalChunks.value == total))
  }

  lemma CreatedAgrees(s: State, totalSize: int, chunkSize: int, totalChunks: int)
    requires ValidSizes(totalSize, chunkSize, totalChunks)
    ensures Agree(CreateSession(s, totalSize, chunkSize, totalChunks).state, totalChunks)
    ensures ProgressTotal(CreateSession(s, totalSize, chunkSize, totalChunks).state) == Some(totalChunks)
  {}

  lemma StepAgrees(s: State, e: Event, total: nat)
    requires Agree(s, total) && InRange(e, total)
    ensures Agree(Step(s, e), total)
  {}

  /** In every run of the two scripts with chunk numbers below the total, interrupted by any expiries of the
      progress hash, the stores agree. */
  lemma {:induction false} RunAgrees(s: State, events: seq<Event>, total: nat)
    requires Agree(s, total) && forall e :: e in events ==> InRange(e, total)
    ensures Agree(After(s, events), total)
    decreases |events|
  {
    if events != [] {
      assert events[0] in events;
      StepAgrees(s, events[0], total);
      RunAgrees(Step(s, events[0]), events[1..], total);
    }
  }

  // ---------------------------------------------------------------- what agreement means for the readers

  function Below(total: nat): (chunks: set<nat>)
    ensures forall n: nat :: n in chunks <==> n < total
    ensures |chunks| == total
  {
    if total == 0 then {}
    else
      var rest := Below(total - 1);
      assert total - 1 !in rest;
      rest + {total - 1}
  }

  lemma {:induction false} SubsetSize(a: set<nat>, b: set<nat>)
    requires a <= b
    ensures |a| <= |b|
    ensures |a| == |b| <==> a == b
    decreases a
  {
    if a == {} {
    } else {
      var x :| x in a;
      SubsetSize(a - {x}, b - {x});
      assert a == (a - {x}) + {x} && b == (b - {x}) + {x};
    }
  }

  /** Counting is enough: the session is complete iff every single chunk is uploaded. */
  lemma CompleteIffAllUploaded(s: State, total: nat)
    requires Agree(s, total)
    ensures |s.uploaded| <= total
    ensures IsSessionComplete(s) <==> forall n: nat :: n < total ==> n in s.uploaded
  {
    SubsetSize(s.uploaded, Below(total));
    assert s.uploaded == Below(total) <==> forall n: nat :: n < total ==> n in s.uploaded;
  }

  lemma DivBounds(a: nat, d: nat)
    requires d > 0
    ensures d * (a / d) <= a < d * (a / d) + d
  {}

  lemma QuotientIs(a: nat, d: nat, q: nat)
    requires d > 0 && d * q <= a < d * q + d
    ensures a / d == q
  {
    DivBounds(a, d);
    var r := a / d;
    if r < q { MulMonotone(d, r + 1, q); }
    if r > q { MulMonotone(d, q + 1, r); }
  }

  lemma MulMonotone(d: nat, a: int, b: int)
    requires a <= b
    ensures d * a <= d * b
  {}

  lemma PercentageMeaning(count: nat, total: nat)
    requires total > 0 && count <= total
    ensures 0 <= Percentage(count, total) <= 100
    ensures Percentage(count, total) == 100 <==> count == total
  {}

  /** Rounding half up exceeds rounding down by at most one. */
  lemma RoundVersusFloor(count: nat, total: nat)
    requires total > 0
    ensures var rounded := (200 * count + total) / (2 * total);
            rounded == Percentage(count, total) || rounded == Percentage(count, total) + 1
  {
    var p := Percentage(count, total);
    DivBounds(100 * count, total);
    var a, d := 200 * count + total, 2 * total;
    assert d * p == 2 * (total * p);
    if a < d * p + d {
      QuotientIs(a, d, p);
    } else {
      assert d * (p + 1) == d * p + d;
      QuotientIs(a, d, p + 1);
    }
  }

  /** Main result: while the stores agree, the cached percentage is between 0 and 100 and is 100 iff the
      session is complete; getProgress says complete iff in addition the progress hash still carries its
      chunk total, that is, never expired; and getSessionProgress shows the cached percentage or one more. */
  lemma ReadersAgree(s: State, total: nat)
    requires Agree(s, total) && s.progress.Some?
    ensures GetProgress(s).percentage <= 100
    ensures GetProgress(s).percentage == 100 <==> IsSessionComplete(s)
    ensures GetProgress(s).isComplete <==> IsSessionComplete(s) && ProgressTotal(s).Some?
    ensures SessionProgress(s).Some?
            && (SessionProgress(s).value == GetProgress(s).percentage
                || SessionProgress(s).value == GetProgress(s).percentage + 1)
  {
    CompleteIffAllUploaded(s, total);
    PercentageMeaning(|s.uploaded|, total);
    RoundVersusFloor(|s.uploaded|, total);
  }

  /** Once the progress hash has expired, no later script brings its chunk total back: getProgress never
      reports completion again, even for a complete session. */
  lemma {:induction false} ExpiredProgressNeverComplete(s: State, events: seq<Event>)
    requires ProgressTotal(s).None?
    ensures ProgressTotal(After(s, events)).None? && !GetProgress(After(s, events)).isComplete
    decreases |events|
  {
    if events != [] { ExpiredProgressNeverComplete(Step(s, events[0]), events[1..]); }
  }

  /** Why a caller must check chunk numbers: the script alone would let one out-of-range chunk complete a one-chunk
      upload whose only chunk is missing. */
  lemma OutOfRangeChunkCompletes()
    ensures var s := CreateSession(State(None, {}, {}, None), 10, 10, 1).state;
            IsSessionComplete(MarkCompleted(s, 7).state) && 0 !in MarkCompleted(s, 7).state.uploaded
  {}

  /** The precondition of the script: in a session that agrees, completing chunk n keeps agreement iff n is below
      the total. */
  lemma CompletedAgreesIff(s: State, n: nat, total: nat)
    requires Agree(s, total)
    ensures Agree(MarkCompleted(s, n).state, total) <==> n < total
  {}

  // ---------------------------------------------------------------- the upload endpoint in front of the scripts

  /** ChunkUploadService.uploadChunk: it rejects chunk numbers outside the session and skips chunks already there;
      `stored` says whether storing the chunk's data succeeds. */
  function UploadChunk(s: State, n: int, stored: bool): State {
    if s.session.None? || s.session.value.totalChunks.None? then s
    else if n < 0 || n >= s.session.value.totalChunks.value then s
    else if n in s.uploaded then s
    else if stored then MarkCompleted(s, n).state
    else MarkFailed(s, n, "").state
  }

  datatype Request = UploadE(n: int, stored: bool) | ProgressLostE

  function Uploads(s: State, requests: seq<Request>): State
    decreases |requests|
  {
    if requests == [] then s
    else
      var t := match requests[0] case UploadE(n, stored) => UploadChunk(s, n, stored) case ProgressLostE => s.(progress := None);
      Uploads(t, requests[1..])
  }

  /** Through the endpoint every run of any requests whatever keeps the stores in agreement: it establishes the
      precondition. */
  lemma {:induction false} UploadsAgree(s: State, requests: seq<Request>, total: nat)
    requires Agree(s, total)
    ensures Agree(Uploads(s, requests), total)
    ensures s.uploaded <= Uploads(s, requests).uploaded
    decreases |requests|
  {
    if requests != [] {
      match requests[0]
      case UploadE(n, stored) =>
        UploadKeepsAgreement(s, n, stored, total);
        UploadsAgree(UploadChunk(s, n, stored), requests[1..], total);
      case ProgressLostE =>
        UploadsAgree(s.(progress := None), requests[1..], total);
    }
  }

  /** One request: agreement is kept, no uploaded chunk is lost, and a chunk is uploaded by it iff it was missing,
      is one of the session's, and its data was stored. */
  lemma UploadKeepsAgreement(s: State, n: int, stored: bool, total: nat)
    requires Agree(s, total)
    ensures var t := UploadChunk(s, n, stored);
            && Agree(t, total) && s.uploaded <= t.uploaded
            && (forall m :: m in t.uploaded && m !in s.uploaded <==> m == n && m !in s.uploaded && 0 <= n < total && stored)
  {
    if 0 <= n < total && n !in s.uploaded {
      StepAgrees(s, if stored then CompletedE(n) else FailedE(n, ""), total);
    }
  }

  // ---------------------------------------------------------------- the last mark decides

  datatype Mark = Unmarked | Uploaded | Failed

  function MarkOf(s: State, n: nat): Mark {
    if n in s.uploaded then Uploaded else if n in s.failed then Failed else Unmarked
  }

  /** What a run's last event about chunk n says, or what was known before. */
  function LastMark(before: Mark, events: seq<Event>, n: nat): Mark {
    if events == [] then before
    else match events[|events|-1]
      case CompletedE(m) => if m == n then Uploaded else LastMark(before, events[..|events|-1], n)
      case FailedE(m, _) => if m == n then Failed else LastMark(before, events[..|events|-1], n)
      case ProgressExpiresE => LastMark(before, events[..|events|-1], n)
  }

  /** The error text of a run's last failure that gave one, or the one known before. */
  function LastError(before: string, events: seq<Event>): string {
    if events == [] then before
    else
      var e := events[|events|-1];
      if e.FailedE? && e.n >= 0 && e.error != "" then e.error else LastError(before, events[..|events|-1])
  }

  lemma {:induction false} AfterConcat(s: State, a: seq<Event>, b: seq<Event>)
    ensures After(s, a + b) == After(After(s, a), b)
    decreases |a|
  {
    if a == [] {
      assert a + b == b;
    } else {
      assert (a + b)[1..] == a[1..] + b;
      AfterConcat(Step(s, a[0]), a[1..], b);
    }
  }

  /** In every run each chunk is in the set its last mark names and in no other, and the session carries the last
      error text, whatever the chunk numbers and however often the progress hash expires. */
  lemma {:induction false} LastMarkDecides(s: State, events: seq<Event>, n: nat)
    requires s.session.Some? && s.uploaded !! s.failed
    ensures var t := After(s, events);
            && t.uploaded !! t.failed && MarkOf(t, n) == LastMark(MarkOf(s, n), events, n)
            && t.session.Some? && t.session.value.lastError == LastError(s.session.value.lastError, events)
    decreases |events|
  {
    if events != [] {
      var front, e := events[..|events|-1], events[|events|-1];
      LastMarkDecides(s, front, n);
      AfterConcat(s, front, [e]);
      assert front + [e] == events && [e][1..] == [];
      assert After(s, events) == Step(After(s, front), e);
    }
  }

  // ---------------------------------------------------------------- what the reports say, read off the marks

  /** The chunks whose last mark in a run on a new session is the given one. */
  function MarkedAs(events: seq<Event>, total: nat, mark: Mark): set<nat> {
    set n: nat | n < total && LastMark(Unmarked, events, n) == mark
  }

  lemma MarksOfNewSession(s: State, events: seq<Event>, total: nat)
    requires Agree(s, total) && s.uploaded == {} && s.failed == {} && forall e :: e in events ==> InRange(e, total)
    ensures forall n: nat :: n in After(s, events).uploaded <==> LastMark(Unmarked, events, n) == Uploaded
    ensures forall n: nat :: n in After(s, events).failed <==> LastMark(Unmarked, events, n) == Failed
    ensures After(s, events).uploaded == MarkedAs(events, total, Uploaded)
  {
    forall n: nat
      ensures MarkOf(After(s, events), n) == LastMark(Unmarked, events, n)
      ensures n !in After(s, events).uploaded || n !in After(s, events).failed
    {
      LastMarkDecides(s, events, n);
    }
    RunAgrees(s, events, total);
  }

  lemma {:induction false} ProgressKept(s: State, events: seq<Event>, total: nat)
    requires Agree(s, total) && ProgressTotal(s) == Some(total)
    requires forall e :: e in events ==> InRange(e, total) && !e.ProgressExpiresE?
    ensures ProgressTotal(After(s, events)) == Some(total)
    decreases |events|
  {
    if events != [] {
      assert events[0] in events && forall e :: e in events[1..] ==> e in events;
      StepAgrees(s, events[0], total);
      ProgressKept(Step(s, events[0]), events[1..], total);
    }
  }

  /** In every run of the scripts on a new session a chunk is reported failed exactly when its last mark says so; and
      while the progress hash lives, the number reported completed is the number of chunks last marked uploaded, and
      the total is the session's. */
  lemma ReportIsOfMarks(old_: State, totalSize: int, chunkSize: int, total: int, events: seq<Event>)
    requires ValidSizes(totalSize, chunkSize, total) && forall e :: e in events ==> InRange(e, total)
    ensures var report := GetProgress(After(CreateSession(old_, totalSize, chunkSize, total).state, events));
            && (forall n: nat :: n in report.failed <==> LastMark(Unmarked, events, n) == Failed)
            && ((forall e :: e in events ==> !e.ProgressExpiresE?) ==>
                  && report.completed == |MarkedAs(events, total, Uploaded)|
                  && report.totalChunks == total
                  && (report.isComplete <==> forall n: nat :: n < total ==> LastMark(Unmarked, events, n) == Uploaded))
  {
    var s := CreateSession(old_, totalSize, chunkSize, total).state;
    CreatedAgrees(old_, totalSize, chunkSize, total);
    MarksOfNewSession(s, events, total);
    RunAgrees(s, events, total);
    if forall e :: e in events ==> !e.ProgressExpiresE? {
      ProgressKept(s, events, total);
      ReadersAgree(After(s, events), total);
      CompleteIffAllUploaded(After(s, events), total);
    }
  }

  /** Without the stored hashes the readers report nothing done, and no session is complete. */
  lemma NothingStoredNothingDone(s: State)
    ensures s.progress.None? ==>
              && GetProgress(s).totalChunks == 0 && GetProgress(s).completed == 0 && GetProgress(s).percentage == 0
              && !GetProgress(s).isComplete
    ensures s.session.None? || s.session.value.totalChunks.None? ==> !IsSessionComplete(s) && SessionProgress(s) == None
  {}

  /** While the stores agree the cached percentage is the greatest whole one not above count / total, and the one
      getSessionProgress shows is the nearest whole one, the greater of two. */
  lemma ShownPercentages(s: State, total: nat)
    requires Agree(s, total) && s.progress.Some?
    ensures var cached, count := GetProgress(s).percentage, |s.uploaded|;
            total * cached <= 100 * count < total * cached + total
    ensures SessionProgress(s).Some?
    ensures var shown, count := SessionProgress(s).value, |s.uploaded|;
            (2 * total) * shown <= 200 * count + total < (2 * total) * shown + 2 * total
  {
    DivBounds(100 * |s.uploaded|, total);
    DivBounds(200 * |s.uploaded| + total, 2 * total);
  }

  // ---------------------------------------------------------------- what the scripts answer

  /** A session is created exactly when all sizes are positive and the chunk count is at most one off the number q of
      chunks that the file needs; otherwise nothing changes. */
  lemma CreateAnswers(s: State, totalSize: int, chunkSize: int, totalChunks: int, q: int)
    requires totalSize > 0 && chunkSize > 0 ==> chunkSize * (q - 1) < totalSize <= chunkSize * q
    ensures CreateSession(s, totalSize, chunkSize, totalChunks).outcome == Success
            <==> totalSize > 0 && chunkSize > 0 && totalChunks > 0 && q - 1 <= totalChunks <= q + 1
    ensures CreateSession(s, totalSize, chunkSize, totalChunks).outcome != Success
            ==> CreateSession(s, totalSize, chunkSize, totalChunks) == Reply(s, InvalidSession)
  {
    if totalSize > 0 && chunkSize > 0 {
      MulMonotone(chunkSize, q - 1, q);
      assert chunkSize * q == chunkSize * (q - 1) + chunkSize;
      if q < 1 { MulMonotone(chunkSize, q, 0); }
      QuotientIs(totalSize + chunkSize - 1, chunkSize, q);
    }
  }

  /** Both scripts succeed for every non-negative chunk number of a session with a total; otherwise the answer says
      what was wrong, and only a session without total has been changed all the same. */
  lemma ScriptAnswers(s: State, n: int, error: string)
    ensures forall r :: r in {MarkCompleted(s, n), MarkFailed(s, n, error)} ==>
              && (r.outcome == InvalidChunk <==> n < 0)
              && (r.outcome == SessionNotFound <==> n >= 0 && s.session.None?)
              && (r.outcome == ScriptError <==> n >= 0 && s.session.Some? && s.session.value.totalChunks.None?)
              && (r.outcome == Success <==> n >= 0 && s.session.Some? && s.session.value.totalChunks.Some?)
              && (r.outcome in {InvalidChunk, SessionNotFound} ==> r.state == s)
  {}

  // ---------------------------------------------------------------- batches

  function FoldCompleted(s: State, chunks: seq<nat>): State {
    if chunks == [] then s else MarkCompleted(FoldCompleted(s, chunks[..|chunks|-1]), chunks[|chunks|-1]).state
  }

  function FoldFailed(s: State, chunks: seq<nat>): State {
    if chunks == [] then s else MarkFailed(FoldFailed(s, chunks[..|chunks|-1]), chunks[|chunks|-1], "").state
  }

  lemma ElementsLast(chunks: seq<nat>)
    requires chunks != []
    ensures Elements(chunks) == Elements(chunks[..|chunks|-1]) + {chunks[|chunks|-1]}
  {
    assert chunks == chunks[..|chunks|-1] + [chunks[|chunks|-1]];
  }

  lemma MarkedSets(s: State, n: nat)
    requires s.session.Some?
    ensures var t := MarkCompleted(s, n).state;
            t.session.Some? && t.uploaded == s.uploaded + {n} && t.failed == s.failed - {n}
    ensures var t := MarkFailed(s, n, "").state;
            t.session.Some? && t.uploaded == s.uploaded - {n} && t.failed == s.failed + {n}
  {}

  lemma {:induction false} FoldCompletedSets(s: State, chunks: seq<nat>)
    requires s.session.Some?
    ensures var t := FoldCompleted(s, chunks);
            t.session.Some? && t.uploaded == s.uploaded + Elements(chunks) && t.failed == s.failed - Elements(chunks)
    decreases |chunks|
  {
    if chunks != [] {
      var front := chunks[..|chunks|-1];
      FoldCompletedSets(s, front);
      ElementsLast(chunks);
      MarkedSets(FoldCompleted(s, front), chunks[|chunks|-1]);
      SetsAgain(s.uploaded, s.failed, Elements(front), chunks[|chunks|-1]);
    }
  }

  lemma SetsAgain(a: set<nat>, b: set<nat>, e: set<nat>, n: nat)
    ensures (a + e) + {n} == a + (e + {n}) && (b - e) - {n} == b - (e + {n})
  {}

  lemma {:induction false} FoldFailedSets(s: State, chunks: seq<nat>)
    requires s.session.Some?
    ensures var t := FoldFailed(s, chunks);
            t.session.Some? && t.uploaded == s.uploaded - Elements(chunks) && t.failed == s.failed + Elements(chunks)
    decreases |chunks|
  {
    if chunks != [] {
      var front := chunks[..|chunks|-1];
      FoldFailedSets(s, front);
      ElementsLast(chunks);
      MarkedSets(FoldFailed(s, front), chunks[|chunks|-1]);
      SetsAgain(s.failed, s.uploaded, Elements(front), chunks[|chunks|-1]);
    }
  }

  /** A batch leaves the two sets as marking its chunks one by one would, completed ones first, whatever the
      lists have in common; so it keeps them disjoint. */
  lemma BatchIsFold(s: State, completed: seq<nat>, failed: seq<nat>)
    requires s.session.Some?
    ensures var one := FoldFailed(FoldCompleted(s, completed), failed);
            BatchUpdate(s, completed, failed).uploaded == one.uploaded
            && BatchUpdate(s, completed, failed).failed == one.failed
    ensures s.uploaded !! s.failed ==>
              BatchUpdate(s, completed, failed).uploaded !! BatchUpdate(s, completed, failed).failed
  {
    FoldCompletedSets(s, completed);
    FoldFailedSets(FoldCompleted(s, completed), failed);
  }

  /** A batch does not touch the progress hash. Its cached count is still right iff the batch uploads as many
      new chunks as it takes back. */
  lemma BatchKeepsCountIff(s: State, completed: seq<nat>, failed: seq<nat>, total: nat)
    requires Agree(s, total) && s.progress.Some?
    requires forall n :: n in completed ==> n < total
    ensures Agree(BatchUpdate(s, completed, failed), total)
            <==> |Elements(completed) - s.uploaded - Elements(failed)| == |s.uploaded * Elements(failed)|
  {
    var t := BatchUpdate(s, completed, failed);
    BatchCount(s.uploaded, Elements(completed), Elements(failed));
    assert t.uploaded !! t.failed && t.progress == s.progress;
    assert Agree(t, total) <==> |t.uploaded| == |s.uploaded|;
  }

  lemma BatchCount(u: set<nat>, c: set<nat>, f: set<nat>)
    ensures |(u + c) - f| == |u| - |u * f| + |c - u - f|
  {
    assert (u + c) - f == (u - f) + (c - u - f);
    assert u == (u - f) + (u * f);
    assert |(u - f) + (c - u - f)| == |u - f| + |c - u - f|;
    assert |(u - f) + (u * f)| == |u - f| + |u * f|;
  }

  // ---------------------------------------------------------------- the service, updating its keys in place

  class ChunkStore {
    var session: Option<Session>
    var uploaded: set<nat>
    var failed: set<nat>
    var progress: Option<Progress>

    constructor ()
      ensures Keys() == State(None, {}, {}, None)
    {
      session, uploaded, failed, progress := None, {}, {}, None;
    }

    function Keys(): State
      reads this
    {
      State(session, uploaded, failed, progress)
    }

    method Create(totalSize: int, chunkSize: int, totalChunks: int) returns (outcome: Outcome)
      modifies this
      ensures Reply(Keys(), outcome) == CreateSession(old(Keys()), totalSize, chunkSize, totalChunks)
    {
      if totalSize <= 0 || chunkSize <= 0 || totalChunks <= 0 { return InvalidSession; }
      var expected := Ceil(totalSize, chunkSize);
      if totalChunks - expected > 1 || expected - totalChunks > 1 { return InvalidSession; }
      session := Some(Session(Some(totalChunks), "pending", ""));
      uploaded, failed := {}, {};
      var staleFailed := if progress.Some? then progress.value.failed else None;
      progress := Some(Progress(Some(totalChunks), 0, staleFailed, 0));
      outcome := Success;
    }

    method MarkChunkCompleted(n: int) returns (outcome: Outcome)
      modifies this
      ensures Reply(Keys(), outcome) == MarkCompleted(old(Keys()), n)
    {
      if n < 0 { return InvalidChunk; }
      if session.None? { return SessionNotFound; }
      uploaded := uploaded + {n};
      failed := failed - {n};
      session := Some(session.value.(status := "uploading"));
      if session.value.totalChunks.None? { return ScriptError; }
      progress := Some(Progress(ProgressTotal(Keys()), |uploaded|, ProgressFailed(Keys()),
                                Percentage(|uploaded|, session.value.totalChunks.value)));
      outcome := Success;
    }

    method MarkChunkFailed(n: int, error: string) returns (outcome: Outcome)
      modifies this
      ensures Reply(Keys(), outcome) == MarkFailed(old(Keys()), n, error)
    {
      if n < 0 { return InvalidChunk; }
      if session.None? { return SessionNotFound; }
      failed := failed + {n};
      uploaded := uploaded - {n};
      if error != "" { session := Some(session.value.(lastError := error)); }
      if session.value.totalChunks.None? { return ScriptError; }
      progress := Some(Progress(ProgressTotal(Keys()), |uploaded|, Some(|failed|),
                                Percentage(|uploaded|, session.value.totalChunks.value)));
      outcome := Success;
    }

    /** The pipeline of batchUpdateChunks: one SADD per list, one SREM per chunk. */
    method BatchUpdateChunks(completed: seq<nat>, failures: seq<nat>)
      modifies this
      ensures Keys() == BatchUpdate(old(Keys()), completed, failures)
    {
      uploaded := uploaded + Elements(completed);
      for i := 0 to |completed|
        invariant failed == old(failed) - Elements(completed[..i])
        invariant uploaded == old(uploaded) + Elements(completed) && session == old(session) && progress == old(progress)
      {
        assert Elements(completed[..i+1]) == Elements(completed[..i]) + {completed[i]};
        failed := failed - {completed[i]};
      }
      assert completed[..|completed|] == completed;
      failed := failed + Elements(failures);
      for i := 0 to |failures|
        invariant uploaded == (old(uploaded) + Elements(completed)) - Elements(failures[..i])
        invariant failed == (old(failed) - Elements(completed)) + Elements(failures)
        invariant session == old(session) && progress == old(progress)
      {
        assert Elements(failures[..i+1]) == Elements(failures[..i]) + {failures[i]};
        uploaded := uploaded - {failures[i]};
      }
      assert failures[..|failures|] == failures;
      if session.None? { session := Some(Session(None, "", "")); }
    }

    method CheckComplete() returns (complete: bool)
      ensures complete == IsSessionComplete(Keys())
    {
      var total := TotalChunks(Keys());
      complete := total > 0 && |uploaded| == total;
    }
  }
}
