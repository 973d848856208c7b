/**
 * The download queue engine: a queue of tasks processed one at a time, with
 * pause, resume, cancel, retry and integrity checking.
 *
 * The network, the file system, hashing and the event loop are outside the
 * model.  One run of the processing loop is driven by an oracle that says how
 * each download attempt ended (the bytes streamed and the file left behind,
 * an exception and its text, or a cancellation noticed while streaming); the
 * waits the loop performs are returned as events instead of being slept.
 */
module DownloadManager {
  import opened Common
  import opened Paths
  import opened Models
  import opened DownloadModel

  // ---------------------------------------------------------------------------
  // One download attempt

  /** How far a stream got before it stopped: the length the server announced
      and the bytes written in this attempt. */
  datatype Partial = Partial(contentLength: int, streamed: nat)

  /** How one attempt ended.  `Streamed`: the whole body was written and the
      file at the destination now holds `file`.  `Raised`: an exception with
      this text, raised before the body started (`reached` is None) or while
      streaming.  `CancelObserved`: the cancel flag was seen between chunks. */
  datatype AttemptOutcome =
    | Streamed(contentLength: int, streamed: nat, file: FileState)
    | Raised(message: string, reached: Option<Partial>)
    | CancelObserved(progress: Partial)

  /** The task after an attempt, with the backoff to wait before the loop goes
      on (`Settled`), or the task after a cancellation (`Interrupted`). */
  datatype AttemptResult =
    | Settled(task: DownloadTask, wait: Option<real>)
    | Interrupted(task: DownloadTask)

  function StreamedBytes(o: AttemptOutcome): nat
  {
    match o
    case Streamed(_, n, _) => n
    case Raised(_, reached) => if reached.Some? then reached.value.streamed else 0
    case CancelObserved(p) => p.streamed
  }

  /** The length header, once the response got that far. */
  function AnnouncedLength(o: AttemptOutcome): Option<int>
  {
    match o
    case Streamed(len, _, _) => Some(len)
    case Raised(_, reached) => if reached.Some? then Some(reached.value.contentLength) else None
    case CancelObserved(p) => Some(p.contentLength)
  }

  /** Byte accounting as the code does it: `total_bytes` is overwritten by the
      announced length, and the bytes of this attempt are ADDED to whatever
      earlier attempts left in `bytes_downloaded`. */
  function AccountAsWritten(t: DownloadTask, o: AttemptOutcome): (r: DownloadTask)
    ensures r == t.(totalBytes := r.totalBytes, bytesDownloaded := r.bytesDownloaded)
    ensures r.bytesDownloaded == t.bytesDownloaded + StreamedBytes(o)
    ensures AnnouncedLength(o).Some? ==> r.totalBytes == AnnouncedLength(o).value
    ensures AnnouncedLength(o).None? ==> r.totalBytes == t.totalBytes
  {
    var len := AnnouncedLength(o);
    t.(totalBytes := if len.Some? then len.value else t.totalBytes,
       bytesDownloaded := t.bytesDownloaded + StreamedBytes(o))
  }

  /** Byte accounting as intended: every attempt rewrites the file from the
      start, so `bytes_downloaded` is the bytes of this attempt. */
  function Account(t: DownloadTask, o: AttemptOutcome): (r: DownloadTask)
    ensures r == t.(totalBytes := r.totalBytes, bytesDownloaded := r.bytesDownloaded)
    ensures r.bytesDownloaded == StreamedBytes(o)
    ensures AnnouncedLength(o).Some? ==> r.totalBytes == AnnouncedLength(o).value
    ensures AnnouncedLength(o).None? ==> r.totalBytes == t.totalBytes
  {
    var len := AnnouncedLength(o);
    t.(totalBytes := if len.Some? then len.value else t.totalBytes,
       bytesDownloaded := StreamedBytes(o))
  }

  /** A completed download never reports more bytes than the server
      announced, and earlier attempts leave no trace in the count. */
  lemma AccountWithinLength(t: DownloadTask, len: int, n: nat, file: FileState)
    requires n <= len
    ensures Account(t, Streamed(len, n, file)).bytesDownloaded <= Account(t, Streamed(len, n, file)).totalBytes
    ensures Account(t, Streamed(len, n, file)).bytesDownloaded == Account(t.(bytesDownloaded := 0), Streamed(len, n, file)).bytesDownloaded
  {
  }

  /** The code's accounting overshoots after a retry: whatever an earlier
      attempt left in the count, a complete later attempt of `len` bytes
      reports more downloaded bytes than the `len` it announced (for example
      100 + 1000 of 1000). */
  lemma BytesOverrunAsWritten(t: DownloadTask, len: nat, file: FileState)
    requires t.bytesDownloaded > 0
    ensures AccountAsWritten(t, Streamed(len, len, file)).totalBytes == len
    ensures AccountAsWritten(t, Streamed(len, len, file)).bytesDownloaded
            == t.bytesDownloaded + AccountAsWritten(t, Streamed(len, len, file)).totalBytes
    ensures AccountAsWritten(t, Streamed(len, len, file)).bytesDownloaded
            > AccountAsWritten(t, Streamed(len, len, file)).totalBytes
  {
  }

  /** The two accountings agree exactly when the count starts from zero, as
      it does on a task's first attempt and after `retry_failed_download`. */
  lemma AccountFromZero(t: DownloadTask, o: AttemptOutcome)
    ensures AccountAsWritten(t.(bytesDownloaded := 0), o) == Account(t, o)
    ensures AccountAsWritten(t, o) == Account(t, o) <==> t.bytesDownloaded == 0
  {
    if AccountAsWritten(t, o) == Account(t, o) {
      assert AccountAsWritten(t, o).bytesDownloaded == Account(t, o).bytesDownloaded;
    }
  }

  /** The failure path of an attempt. */
  function Fail(t: DownloadTask, msg: string, maxRetries: int, delay: real): AttemptResult
  {
    var p := AfterFailure(t, msg, maxRetries, delay);
    Settled(p.0, p.1)
  }

  /** The status an attempt ends in, once its bytes are accounted: a streamed
      file with a matching (or no) checksum completes; a mismatch, an exception
      while hashing, or any other exception goes through the retry policy; an
      observed cancellation marks the task CANCELLED.  Archive detection and
      extraction never change the outcome: their errors are logged and
      swallowed. */
  function Settle(t1: DownloadTask, o: AttemptOutcome, maxRetries: int, delay: real, hash: seq<Byte> -> string): (r: AttemptResult)
    ensures r.task.bytesDownloaded == t1.bytesDownloaded && r.task.totalBytes == t1.totalBytes
    ensures r.Interrupted? <==> o.CancelObserved?
    ensures r.Settled? && r.task.status == Completed <==>
      o.Streamed? && VerifyChecksum(t1.checksum, o.file, hash) == Ok(true)
  {
    match o
    case Streamed(_, _, file) =>
      (match VerifyChecksum(t1.checksum, file, hash)
       case Ok(ok) => if ok then Settled(t1.(status := Completed), None)
                      else Fail(t1, "Checksum verification failed", maxRetries, delay)
       case Err(e) => Fail(t1, e, maxRetries, delay))
    case Raised(msg, _) => Fail(t1, msg, maxRetries, delay)
    case CancelObserved(_) => Interrupted(t1.(status := Cancelled))
  }

  /** `_download_task` on a DOWNLOADING task, with the code's accounting:
      the bytes of this attempt are added to the count earlier attempts left. */
  function Attempt(t: DownloadTask, o: AttemptOutcome, maxRetries: int, delay: real, hash: seq<Byte> -> string): (r: AttemptResult)
    ensures r.task.game == t.game && r.task.disc == t.disc && r.task.destination == t.destination
    ensures r.task.taskId == t.taskId && r.task.checksum == t.checksum
    ensures r.task.bytesDownloaded == t.bytesDownloaded + StreamedBytes(o)
    ensures AnnouncedLength(o).Some? ==> r.task.totalBytes == AnnouncedLength(o).value
    ensures AnnouncedLength(o).None? ==> r.task.totalBytes == t.totalBytes
    ensures r.Interrupted? <==> o.CancelObserved?
    ensures r.Interrupted? ==> r.task.status == Cancelled && r.task.retryCount == t.retryCount
    ensures r.Settled? ==> r.task.status == Completed || r.task.status == Pending || r.task.status == Failed
    ensures r.Settled? && r.task.status == Completed <==>
      o.Streamed? && VerifyChecksum(t.checksum, o.file, hash) == Ok(true)
    ensures r.Settled? && r.task.status == Completed ==> r.task.retryCount == t.retryCount && r.wait.None?
    ensures r.Settled? && r.task.status != Completed ==> r.task.retryCount == t.retryCount + 1
    ensures r.Settled? && r.task.status == Pending ==>
      r.task.retryCount < maxRetries && r.task.errorMessage.Some?
      && r.wait == Some(Backoff(r.task.errorMessage.value, delay, r.task.retryCount))
    ensures r.Settled? && r.task.status == Failed ==> r.task.retryCount >= maxRetries && r.wait.None?
  {
    Settle(AccountAsWritten(t, o), o, maxRetries, delay, hash)
  }

  // ---------------------------------------------------------------------------
  // The processing loop as a function

  datatype RunEvent = Yielded(task: DownloadTask) | Slept(seconds: real)

  datatype RunResult = RunResult(queue: seq<DownloadTask>, events: seq<RunEvent>, cancelled: bool)

  /** What a PENDING task still may cost the loop: its remaining attempts. */
  function Term(t: DownloadTask, maxRetries: int): nat
  {
    if t.status == Pending then (if maxRetries - t.retryCount > 0 then maxRetries - t.retryCount else 0) + 1 else 0
  }

  function Budget(q: seq<DownloadTask>, maxRetries: int): nat
  {
    if q == [] then 0 else Term(q[0], maxRetries) + Budget(q[1..], maxRetries)
  }

  lemma {:induction false} BudgetUpdate(q: seq<DownloadTask>, i: nat, t: DownloadTask, maxRetries: int)
    requires i < |q|
    ensures Budget(q[i := t], maxRetries) == Budget(q, maxRetries) - Term(q[i], maxRetries) + Term(t, maxRetries)
  {
    if i == 0 {
      assert q[i := t][1..] == q[1..];
    } else {
      BudgetUpdate(q[1..], i - 1, t, maxRetries);
      assert q[i := t][1..] == q[1..][i - 1 := t];
    }
  }

  /** Settling the first PENDING task always uses up part of the budget. */
  lemma BudgetShrinks(q: seq<DownloadTask>, i: nat, r: AttemptResult, maxRetries: int)
    requires i < |q| && q[i].status == Pending
    requires r.task.status != Pending || r.task.retryCount == q[i].retryCount + 1 < maxRetries
    ensures Budget(q[i := r.task], maxRetries) < Budget(q, maxRetries)
  {
    BudgetUpdate(q, i, r.task, maxRetries);
  }

  /** The waits that follow a settled attempt, around the yield: the backoff
      first, then the pause between downloads when it is positive. */
  function StepEvents(r: AttemptResult, delay: real): seq<RunEvent>
    requires r.Settled?
  {
    (if r.wait.Some? then [Slept(r.wait.value)] else [])
    + [Yielded(r.task)]
    + (if delay > 0.0 then [Slept(delay)] else [])
  }

  /** `start_downloads` from a queue, `n` attempts into the run: take the first
      PENDING task, attempt it, put the result back in place, and go on until
      no PENDING task is left or a cancellation is observed (which cancels
      every unfinished task, as `cancel_downloads` does, and ends the run
      without yielding). */
  function RunLoop(q: seq<DownloadTask>, n: nat, oracle: (DownloadTask, nat) -> AttemptOutcome,
                   maxRetries: int, delay: real, hash: seq<Byte> -> string): (r: RunResult)
    ensures |r.queue| == |q|
    decreases Budget(q, maxRetries)
  {
    var i := FirstPending(q);
    if i == |q| then RunResult(q, [], false)
    else
      var t := q[i].(status := Downloading);
      var res := Attempt(t, oracle(t, n), maxRetries, delay, hash);
      if res.Interrupted? then RunResult(CancelAll(q[i := res.task]), [], true)
      else
        BudgetShrinks(q, i, res, maxRetries);
        var rest := RunLoop(q[i := res.task], n + 1, oracle, maxRetries, delay, hash);
        RunResult(rest.queue, StepEvents(res, delay) + rest.events, rest.cancelled)
  }

  /** The run of `r`, preceded by the events `ev`. */
  function Glue(ev: seq<RunEvent>, r: RunResult): RunResult
  {
    RunResult(r.queue, ev + r.events, r.cancelled)
  }

  lemma GlueGlue(a: seq<RunEvent>, b: seq<RunEvent>, r: RunResult)
    ensures Glue(a, Glue(b, r)) == Glue(a + b, r)
  {
    assert a + (b + r.events) == (a + b) + r.events;
  }

  lemma RunLoopDone(q: seq<DownloadTask>, n: nat, oracle: (DownloadTask, nat) -> AttemptOutcome,
                    maxRetries: int, delay: real, hash: seq<Byte> -> string)
    requires FirstPending(q) == |q|
    ensures RunLoop(q, n, oracle, maxRetries, delay, hash) == RunResult(q, [], false)
  {
  }

  /** One turn of the loop. */
  lemma RunLoopStep(q: seq<DownloadTask>, n: nat, oracle: (DownloadTask, nat) -> AttemptOutcome,
                    maxRetries: int, delay: real, hash: seq<Byte> -> string)
    requires FirstPending(q) < |q|
    ensures var i := FirstPending(q);
      var t := q[i].(status := Downloading);
      var res := Attempt(t, oracle(t, n), maxRetries, delay, hash);
      (res.Interrupted? ==> RunLoop(q, n, oracle, maxRetries, delay, hash) == RunResult(CancelAll(q[i := res.task]), [], true))
      && (res.Settled? ==>
            RunLoop(q, n, oracle, maxRetries, delay, hash)
            == Glue(StepEvents(res, delay), RunLoop(q[i := res.task], n + 1, oracle, maxRetries, delay, hash)))
  {
  }

  /** A requeued task is still the first PENDING task, so it is retried before
      any task behind it. */
  lemma RequeuedRetriedFirst(q: seq<DownloadTask>, r: AttemptResult)
    requires FirstPending(q) < |q|
    requires r.task.status == Pending
    ensures FirstPending(q[FirstPending(q) := r.task]) == FirstPending(q)
  {
    var i := FirstPending(q);
    var q2 := q[i := r.task];
    assert forall k :: 0 <= k < i ==> q2[k].status != Pending;
    FirstPendingIsFirst(q2, i);
  }

  lemma {:induction false} FirstPendingIsFirst(q: seq<DownloadTask>, i: nat)
    requires i < |q| && q[i].status == Pending
    requires forall k :: 0 <= k < i ==> q[k].status != Pending
    ensures FirstPending(q) == i
  {
    if i > 0 {
      FirstPendingIsFirst(q[1..], i - 1);
    }
  }

  /** The run leaves no PENDING task behind, whether it ends by exhausting the
      queue or by a cancellation. */
  lemma {:induction false} RunLeavesNoPending(q: seq<DownloadTask>, n: nat, oracle: (DownloadTask, nat) -> AttemptOutcome,
                                              maxRetries: int, delay: real, hash: seq<Byte> -> string)
    ensures CountStatus(RunLoop(q, n, oracle, maxRetries, delay, hash).queue, Pending) == 0
    decreases Budget(q, maxRetries)
  {
    var i := FirstPending(q);
    if i < |q| {
      var t := q[i].(status := Downloading);
      var res := Attempt(t, oracle(t, n), maxRetries, delay, hash);
      if res.Interrupted? {
        CancelAllOutcome(q[i := res.task]);
      } else {
        BudgetShrinks(q, i, res, maxRetries);
        RunLeavesNoPending(q[i := res.task], n + 1, oracle, maxRetries, delay, hash);
      }
    }
  }

  /** The fields no run changes: id, game, disc, destination, checksum. */
  predicate SameIdentity(a: DownloadTask, b: DownloadTask)
  {
    a.taskId == b.taskId && a.game == b.game && a.disc == b.disc
    && a.destination == b.destination && a.checksum == b.checksum
  }

  predicate IdentityKept(q: seq<DownloadTask>, q2: seq<DownloadTask>)
  {
    |q2| == |q| && forall k :: 0 <= k < |q| ==> SameIdentity(q2[k], q[k])
  }

  lemma IdentityKeptTrans(a: seq<DownloadTask>, b: seq<DownloadTask>, c: seq<DownloadTask>)
    requires IdentityKept(a, b) && IdentityKept(b, c)
    ensures IdentityKept(a, c)
  {
  }

  /** Identity is kept: every position holds the same task (id, game, disc,
      destination, checksum) after the run. */
  lemma {:induction false} RunKeepsIdentity(q: seq<DownloadTask>, n: nat, oracle: (DownloadTask, nat) -> AttemptOutcome,
                                            maxRetries: int, delay: real, hash: seq<Byte> -> string)
    ensures IdentityKept(q, RunLoop(q, n, oracle, maxRetries, delay, hash).queue)
    decreases Budget(q, maxRetries)
  {
    var i := FirstPending(q);
    if i < |q| {
      var t := q[i].(status := Downloading);
      var res := Attempt(t, oracle(t, n), maxRetries, delay, hash);
      RunLoopStep(q, n, oracle, maxRetries, delay, hash);
      var q2 := q[i := res.task];
      assert IdentityKept(q, q2);
      if res.Settled? {
        BudgetShrinks(q, i, res, maxRetries);
        RunKeepsIdentity(q2, n + 1, oracle, maxRetries, delay, hash);
        IdentityKeptTrans(q, q2, RunLoop(q2, n + 1, oracle, maxRetries, delay, hash).queue);
      } else {
        assert IdentityKept(q2, CancelAll(q2));
        IdentityKeptTrans(q, q2, CancelAll(q2));
      }
    }
  }

  /** A task that was not PENDING when the run started is left as it was,
      except that a cancelled run cancels it if it was unfinished. */
  predicate SettledKept(q: seq<DownloadTask>, r: RunResult)
  {
    |r.queue| == |q|
    && forall k :: 0 <= k < |q| && q[k].status != Pending ==>
         r.queue[k] == (if r.cancelled then CancelTask(q[k]) else q[k])
  }

  lemma {:induction false} RunKeepsSettled(q: seq<DownloadTask>, n: nat, oracle: (DownloadTask, nat) -> AttemptOutcome,
                                           maxRetries: int, delay: real, hash: seq<Byte> -> string)
    ensures SettledKept(q, RunLoop(q, n, oracle, maxRetries, delay, hash))
    decreases Budget(q, maxRetries)
  {
    var i := FirstPending(q);
    if i < |q| {
      var t := q[i].(status := Downloading);
      var res := Attempt(t, oracle(t, n), maxRetries, delay, hash);
      RunLoopStep(q, n, oracle, maxRetries, delay, hash);
      var q2 := q[i := res.task];
      if res.Settled? {
        BudgetShrinks(q, i, res, maxRetries);
        RunKeepsSettled(q2, n + 1, oracle, maxRetries, delay, hash);
        SettledKeptStep(q, i, res.task, StepEvents(res, delay), RunLoop(q2, n + 1, oracle, maxRetries, delay, hash));
      }
    }
  }

  lemma SettledKeptStep(q: seq<DownloadTask>, i: nat, t: DownloadTask, ev: seq<RunEvent>, r: RunResult)
    requires i < |q| && q[i].status == Pending
    requires SettledKept(q[i := t], r)
    ensures SettledKept(q, Glue(ev, r))
  {
    assert forall k :: 0 <= k < |q| && q[k].status != Pending ==> q[i := t][k] == q[k];
  }

  predicate SettledStatus(s: DownloadStatus)
  {
    s == Completed || s == Failed || s == Pending
  }

  /** Every task among the events that was yielded is settled. */
  predicate YieldsSettled(e: seq<RunEvent>)
  {
    forall k :: 0 <= k < |e| && e[k].Yielded? ==> SettledStatus(e[k].task.status)
  }

  lemma YieldsSettledConcat(a: seq<RunEvent>, b: seq<RunEvent>)
    requires YieldsSettled(a) && YieldsSettled(b)
    ensures YieldsSettled(a + b)
  {
    assert forall k :: |a| <= k < |a + b| ==> (a + b)[k] == b[k - |a|];
  }

  lemma StepYieldsSettled(r: AttemptResult, delay: real)
    requires r.Settled? && SettledStatus(r.task.status)
    ensures YieldsSettled(StepEvents(r, delay))
  {
  }

  /** Every yielded task is COMPLETED, FAILED, or PENDING again for a retry. */
  lemma {:induction false} RunYieldsSettled(q: seq<DownloadTask>, n: nat, oracle: (DownloadTask, nat) -> AttemptOutcome,
                                            maxRetries: int, delay: real, hash: seq<Byte> -> string)
    ensures YieldsSettled(RunLoop(q, n, oracle, maxRetries, delay, hash).events)
    decreases Budget(q, maxRetries)
  {
    var i := FirstPending(q);
    if i < |q| {
      var t := q[i].(status := Downloading);
      var res := Attempt(t, oracle(t, n), maxRetries, delay, hash);
      RunLoopStep(q, n, oracle, maxRetries, delay, hash);
      if res.Settled? {
        BudgetShrinks(q, i, res, maxRetries);
        RunYieldsSettled(q[i := res.task], n + 1, oracle, maxRetries, delay, hash);
        StepYieldsSettled(res, delay);
        YieldsSettledConcat(StepEvents(res, delay), RunLoop(q[i := res.task], n + 1, oracle, maxRetries, delay, hash).events);
      }
    }
  }

  /** Only a COMPLETED task carries a checksum: `verify_file_integrity` is
      the one place that sets it, and only on COMPLETED tasks. */
  predicate ChecksumsOnCompleted(q: seq<DownloadTask>)
  {
    forall k :: 0 <= k < |q| ==> q[k].checksum.Some? ==> q[k].status == Completed
  }

  lemma {:induction false} RunKeepsChecksums(q: seq<DownloadTask>, n: nat, oracle: (DownloadTask, nat) -> AttemptOutcome,
                                             maxRetries: int, delay: real, hash: seq<Byte> -> string)
    requires ChecksumsOnCompleted(q)
    ensures ChecksumsOnCompleted(RunLoop(q, n, oracle, maxRetries, delay, hash).queue)
    decreases Budget(q, maxRetries)
  {
    var i := FirstPending(q);
    if i < |q| {
      var t := q[i].(status := Downloading);
      var res := Attempt(t, oracle(t, n), maxRetries, delay, hash);
      if res.Interrupted? {
        CancelAllOutcome(q[i := res.task]);
      } else {
        BudgetShrinks(q, i, res, maxRetries);
        RunKeepsChecksums(q[i := res.task], n + 1, oracle, maxRetries, delay, hash);
      }
    }
  }

  /** Hence, for a queue reached through the service's operations, the
      checksum test inside an attempt always passes: the task a run picks has
      no checksum. */
  lemma ChecksumNeverFailsARun(q: seq<DownloadTask>, file: FileState, hash: seq<Byte> -> string)
    requires ChecksumsOnCompleted(q)
    requires FirstPending(q) < |q|
    ensures VerifyChecksum(q[FirstPending(q)].checksum, file, hash) == Ok(true)
  {
  }

  // ---------------------------------------------------------------------------
  // Batches and retries

  /** The (game, disc) pairs of one game, disc by disc. */
  function GamePairs(game: GameData, discs: seq<DiscInfo>): (r: seq<(GameData, DiscInfo)>)
    ensures |r| == |discs|
    ensures forall k :: 0 <= k < |r| ==> r[k] == (game, discs[k])
  {
    seq(|discs|, k requires 0 <= k < |discs| => (game, discs[k]))
  }

  /** The (game, disc) pairs of a batch, game by game and disc by disc. */
  function DiscPairs(games: seq<GameData>): (r: seq<(GameData, DiscInfo)>)
    ensures |r| == TotalDiscs(games)
  {
    if games == [] then []
    else
      var init := games[..|games| - 1];
      var last := games[|games| - 1];
      TotalDiscsConcat(init, [last]);
      assert init + [last] == games;
      DiscPairs(init) + GamePairs(last, last.discs)
  }

  /** The size a disc announces, 0 when unknown. */
  function KnownSize(p: (GameData, DiscInfo)): int
  {
    if p.1.fileSize.Some? then p.1.fileSize.value else 0
  }

  function SumKnownSizes(pairs: seq<(GameData, DiscInfo)>): int
  {
    if pairs == [] then 0 else KnownSize(pairs[0]) + SumKnownSizes(pairs[1..])
  }

  /** A naming rule: the destination of a disc's download, by ES-DE mode. */
  type DestinationRule = (bool, GameData, DiscInfo) -> Path

  /** The rule the service applies under its download directory. */
  function StandardRule(base: Path): DestinationRule
  {
    (esdeMode: bool, game: GameData, disc: DiscInfo) => NewTaskDestination(base, esdeMode, game, disc)
  }

  /** The task `add_to_queue` creates for the k-th (game, disc) pair of a
      batch. */
  function TaskMaker(rule: DestinationRule, esdeMode: bool, tokens: nat -> string): ((GameData, DiscInfo), nat) -> DownloadTask
  {
    (p: (GameData, DiscInfo), k: nat) => NewTask(rule(esdeMode, p.0, p.1), p.0, p.1, tokens(k))
  }

  /** The tasks a batch creates, one per pair, numbered from `start`. */
  function BatchTasks(mk: ((GameData, DiscInfo), nat) -> DownloadTask, pairs: seq<(GameData, DiscInfo)>, start: nat)
    : (r: seq<DownloadTask>)
    ensures |r| == |pairs|
  {
    if pairs == [] then [] else [mk(pairs[0], start)] + BatchTasks(mk, pairs[1..], start + 1)
  }

  lemma {:induction false} BatchTasksConcat(mk: ((GameData, DiscInfo), nat) -> DownloadTask,
                                            p1: seq<(GameData, DiscInfo)>, p2: seq<(GameData, DiscInfo)>, start: nat)
    ensures BatchTasks(mk, p1 + p2, start) == BatchTasks(mk, p1, start) + BatchTasks(mk, p2, start + |p1|)
  {
    if p1 == [] {
      assert p1 + p2 == p2;
    } else {
      var ps := p1 + p2;
      assert ps[0] == p1[0] && ps[1..] == p1[1..] + p2;
      BatchTasksConcat(mk, p1[1..], p2, start + 1);
      var t, f, g := [mk(p1[0], start)], BatchTasks(mk, p1[1..], start + 1), BatchTasks(mk, p2, start + |p1|);
      assert BatchTasks(mk, ps, start) == t + (f + g) == (t + f) + g;
    }
  }

  lemma {:induction false} BatchTasksAt(mk: ((GameData, DiscInfo), nat) -> DownloadTask,
                                        pairs: seq<(GameData, DiscInfo)>, start: nat, k: nat)
    requires k < |pairs|
    ensures BatchTasks(mk, pairs, start)[k] == mk(pairs[k], start + k)
  {
    if k > 0 {
      BatchTasksAt(mk, pairs[1..], start + 1, k - 1);
    }
  }

  lemma BatchTasksSnoc(mk: ((GameData, DiscInfo), nat) -> DownloadTask, pairs: seq<(GameData, DiscInfo)>, i: nat)
    requires i < |pairs|
    ensures BatchTasks(mk, pairs[..i + 1], 0) == BatchTasks(mk, pairs[..i], 0) + [mk(pairs[i], i)]
  {
    assert pairs[..i + 1] == pairs[..i] + [pairs[i]];
    BatchTasksConcat(mk, pairs[..i], [pairs[i]], 0);
  }

  /** The k-th task of a batch is the new task for the k-th (game, disc)
      pair with the k-th token, so the batch keeps game-then-disc order. */
  lemma BatchOrder(rule: DestinationRule, esdeMode: bool, games: seq<GameData>, tokens: nat -> string, k: nat)
    requires k < TotalDiscs(games)
    ensures var p := DiscPairs(games)[k];
      BatchTasks(TaskMaker(rule, esdeMode, tokens), DiscPairs(games), 0)[k]
        == NewTask(rule(esdeMode, p.0, p.1), p.0, p.1, tokens(k))
  {
    BatchTasksAt(TaskMaker(rule, esdeMode, tokens), DiscPairs(games), 0, k);
  }

  /** The tasks of a batch are all PENDING with nothing downloaded, and the
      queue's byte total grows by the announced sizes. */
  lemma {:induction false} BatchTasksSummary(rule: DestinationRule, esdeMode: bool, tokens: nat -> string, pairs: seq<(GameData, DiscInfo)>, start: nat)
    ensures CountStatus(BatchTasks(TaskMaker(rule, esdeMode, tokens), pairs, start), Pending) == |pairs|
    ensures SumDownloaded(BatchTasks(TaskMaker(rule, esdeMode, tokens), pairs, start)) == 0
    ensures SumTotal(BatchTasks(TaskMaker(rule, esdeMode, tokens), pairs, start)) == SumKnownSizes(pairs)
  {
    if pairs != [] {
      var mk := TaskMaker(rule, esdeMode, tokens);
      BatchTasksSummary(rule, esdeMode, tokens, pairs[1..], start + 1);
      var r := BatchTasks(mk, pairs, start);
      assert r[1..] == BatchTasks(mk, pairs[1..], start + 1);
      var t := NewTask(rule(esdeMode, pairs[0].0, pairs[0].1), pairs[0].0, pairs[0].1, tokens(start));
      assert r[0] == t;
    }
  }

  /** `retry_failed_download`'s reset: PENDING again, no bytes, no error, and
      the full number of attempts. */
  function ResetForRetry(t: DownloadTask): (r: DownloadTask)
    ensures r.status == Pending && r.bytesDownloaded == 0 && r.errorMessage.None? && r.retryCount == 0
    ensures r == t.(status := Pending, bytesDownloaded := 0, errorMessage := None, retryCount := 0)
  {
    t.(status := Pending, bytesDownloaded := 0, errorMessage := None, retryCount := 0)
  }

  /** A reset task gets the whole retry budget back: with three attempts
      allowed, it can again fail twice with a wait before failing for good. */
  lemma RetryRestoresBudget(t: DownloadTask, msg: string, delay: real)
    ensures Term(ResetForRetry(t), 3) == 4
    ensures AfterFailure(ResetForRetry(t), msg, 3, delay).0.status == Pending
  {
  }

  // ---------------------------------------------------------------------------
  // The service

  const DefaultMaxRetries := 3
  const DefaultDownloadDelay := 2.0

  class DownloadManagerService {
    const downloadDirectory: Path
    const maxRetries: int
    const downloadDelay: real
    /** How the service's file-naming helper names a disc's download: fixed
        when the service is built, and always `StandardRule(downloadDirectory)`. */
    const destinationRule: DestinationRule
    var esdeMode: bool
    var queue: seq<DownloadTask>
    var isPaused: bool
    var isRunning: bool
    var cancelRequested: bool

    ghost predicate Valid()
      reads this
    {
      ChecksumsOnCompleted(queue)
    }

    constructor(downloadDirectory: Path, maxRetries: int, esdeMode: bool, downloadDelay: real)
      ensures Valid()
      ensures this.downloadDirectory == downloadDirectory && this.maxRetries == maxRetries
      ensures this.esdeMode == esdeMode && this.downloadDelay == downloadDelay
      ensures destinationRule == StandardRule(downloadDirectory)
      ensures queue == [] && !isPaused && !isRunning && !cancelRequested
    {
      this.downloadDirectory := downloadDirectory;
      destinationRule := StandardRule(downloadDirectory);
      this.maxRetries := maxRetries;
      this.esdeMode := esdeMode;
      this.downloadDelay := downloadDelay;
      queue := [];
      isPaused := false;
      isRunning := false;
      cancelRequested := false;
    }

    /** The `esde_mode` setter. */
    method SetEsdeMode(value: bool)
      modifies this
      ensures esdeMode == value
      ensures queue == old(queue) && isPaused == old(isPaused) && isRunning == old(isRunning)
      ensures cancelRequested == old(cancelRequested)
    {
      esdeMode := value;
    }

    /** `add_to_queue`; `token` stands for the eight random hex digits of the
        id. */
    method AddToQueue(game: GameData, disc: DiscInfo, token: string) returns (t: DownloadTask)
      requires Valid()
      modifies this
      ensures Valid()
      ensures t == NewTask(destinationRule(esdeMode, game, disc), game, disc, token)
      ensures queue == old(queue) + [t]
      ensures esdeMode == old(esdeMode) && isPaused == old(isPaused) && isRunning == old(isRunning)
      ensures cancelRequested == old(cancelRequested)
    {
      t := NewTask(destinationRule(esdeMode, game, disc), game, disc, token);
      queue := queue + [t];
    }

    /** `add_batch_to_queue`: one task per disc, game by game; the k-th new
        task draws `tokens(k)`.  The two nested loops of the source are one
        loop over the (game, disc) pairs here. */
    method AddBatchToQueue(games: seq<GameData>, tokens: nat -> string) returns (tasks: seq<DownloadTask>)
      requires Valid()
      modifies this
      ensures Valid()
      ensures tasks == BatchTasks(TaskMaker(destinationRule, esdeMode, tokens), DiscPairs(games), 0)
      ensures |tasks| == TotalDiscs(games)
      ensures queue == old(queue) + tasks
      ensures esdeMode == old(esdeMode) && isPaused == old(isPaused) && isRunning == old(isRunning)
      ensures cancelRequested == old(cancelRequested)
    {
      var pairs := DiscPairs(games);
      tasks := [];
      for i := 0 to |pairs|
        invariant Valid()
        invariant tasks == BatchTasks(TaskMaker(destinationRule, esdeMode, tokens), pairs[..i], 0)
        invariant queue == old(queue) + tasks
        invariant esdeMode == old(esdeMode) && isPaused == old(isPaused) && isRunning == old(isRunning)
        invariant cancelRequested == old(cancelRequested)
      {
        var t := AddToQueue(pairs[i].0, pairs[i].1, tokens(i));
        BatchTasksSnoc(TaskMaker(destinationRule, esdeMode, tokens), pairs, i);
        tasks := tasks + [t];
      }
      assert pairs[..|pairs|] == pairs;
    }

    /** The index of the first task with this id, or the queue length. */
    method FindIndex(id: string) returns (i: nat)
      ensures i == IndexOfId(queue, id)
    {
      i := 0;
      while i < |queue| && queue[i].taskId != id
        invariant i <= |queue|
        invariant forall k :: 0 <= k < i ==> queue[k].taskId != id
      {
        i := i + 1;
      }
      IndexOfIdIsFirst(queue, id, i);
    }

    /** `remove_from_queue` */
    method RemoveFromQueue(id: string) returns (removed: bool)
      requires Valid()
      modifies this
      ensures Valid()
      ensures removed <==> exists k :: 0 <= k < |old(queue)| && old(queue)[k].taskId == id
      ensures queue == RemovedQueue(old(queue), id)
      ensures esdeMode == old(esdeMode) && isPaused == old(isPaused) && isRunning == old(isRunning)
      ensures cancelRequested == old(cancelRequested)
    {
      var i := FindIndex(id);
      if i == |queue| {
        removed := false;
      } else {
        queue := queue[..i] + queue[i + 1..];
        removed := true;
      }
    }

    /** `clear_queue` */
    method ClearQueue()
      requires Valid()
      modifies this
      ensures Valid()
      ensures queue == ClearedQueue(old(queue))
      ensures esdeMode == old(esdeMode) && isPaused == old(isPaused) && isRunning == old(isRunning)
      ensures cancelRequested == old(cancelRequested)
    {
      queue := ClearedQueue(queue);
    }

    /** Relabel every task of one status, in place. */
    method RelabelQueue(from: DownloadStatus, to: DownloadStatus)
      modifies this
      ensures queue == RelabelAll(old(queue), from, to)
      ensures esdeMode == old(esdeMode) && isPaused == old(isPaused) && isRunning == old(isRunning)
      ensures cancelRequested == old(cancelRequested)
    {
      var i := 0;
      while i < |queue|
        invariant i <= |queue| == |old(queue)|
        invariant forall k :: 0 <= k < i ==> queue[k] == Relabel(old(queue)[k], from, to)
        invariant forall k :: i <= k < |queue| ==> queue[k] == old(queue)[k]
        invariant esdeMode == old(esdeMode) && isPaused == old(isPaused) && isRunning == old(isRunning)
        invariant cancelRequested == old(cancelRequested)
      {
        if queue[i].status == from {
          queue := queue[i := queue[i].(status := to)];
        }
        i := i + 1;
      }
      assert queue == RelabelAll(old(queue), from, to);
    }

    /** `pause_downloads` */
    method PauseDownloads()
      requires Valid()
      modifies this
      ensures Valid()
      ensures old(isPaused) ==> queue == old(queue)
      ensures !old(isPaused) ==> queue == RelabelAll(old(queue), Downloading, Paused)
      ensures isPaused
      ensures esdeMode == old(esdeMode) && isRunning == old(isRunning) && cancelRequested == old(cancelRequested)
    {
      if isPaused {
        return;
      }
      isPaused := true;
      RelabelQueue(Downloading, Paused);
    }

    /** `resume_downloads` */
    method ResumeDownloads()
      requires Valid()
      modifies this
      ensures Valid()
      ensures !old(isPaused) ==> queue == old(queue)
      ensures old(isPaused) ==> queue == RelabelAll(old(queue), Paused, Downloading)
      ensures !isPaused
      ensures esdeMode == old(esdeMode) && isRunning == old(isRunning) && cancelRequested == old(cancelRequested)
    {
      if !isPaused {
        return;
      }
      isPaused := false;
      RelabelQueue(Paused, Downloading);
    }

    /** `cancel_downloads` */
    method CancelDownloads()
      requires Valid()
      modifies this
      ensures Valid()
      ensures queue == CancelAll(old(queue))
      ensures cancelRequested && !isRunning
      ensures esdeMode == old(esdeMode) && isPaused == old(isPaused)
    {
      cancelRequested := true;
      isRunning := false;
      var i := 0;
      while i < |queue|
        invariant i <= |queue| == |old(queue)|
        invariant forall k :: 0 <= k < i ==> queue[k] == CancelTask(old(queue)[k])
        invariant forall k :: i <= k < |queue| ==> queue[k] == old(queue)[k]
        invariant cancelRequested && !isRunning
        invariant esdeMode == old(esdeMode) && isPaused == old(isPaused)
      {
        queue := queue[i := CancelTask(queue[i])];
        i := i + 1;
      }
      assert queue == CancelAll(old(queue));
    }

    /** `get_queue_status` */
    method GetQueueStatus() returns (status: QueueStatus)
      ensures status == StatusOf(queue)
    {
      status := QueueStatus(0, 0, 0, 0, 0, 0, 0, 0);
      var i := 0;
      while i < |queue|
        invariant i <= |queue|
        invariant status == StatusOf(queue[..i])
      {
        var t := queue[i];
        StatusOfSnoc(queue[..i], t);
        assert queue[..i + 1] == queue[..i] + [t];
        status := CountTask(status, t);
        i := i + 1;
      }
      assert queue[..i] == queue;
    }

    /** The body of `get_queue_status`'s loop: count one task. */
    static method CountTask(s: QueueStatus, t: DownloadTask) returns (status: QueueStatus)
      ensures status == Tally(s, t)
    {
      status := s.(totalTasks := s.totalTasks + 1, totalBytes := s.totalBytes + t.totalBytes,
                   downloadedBytes := s.downloadedBytes + t.bytesDownloaded);
      if t.status == Pending {
        status := status.(pendingTasks := status.pendingTasks + 1);
      } else if t.status == Downloading {
        status := status.(downloadingTasks := status.downloadingTasks + 1);
      } else if t.status == Completed {
        status := status.(completedTasks := status.completedTasks + 1);
      } else if t.status == Failed {
        status := status.(failedTasks := status.failedTasks + 1);
      } else if t.status == Paused {
        status := status.(pausedTasks := status.pausedTasks + 1);
      }
    }

    /** `get_task` */
    method GetTask(id: string) returns (r: Option<DownloadTask>)
      ensures r == FindTask(queue, id)
    {
      var i := FindIndex(id);
      r := if i == |queue| then None else Some(queue[i]);
    }

    /** `get_all_tasks`: a copy of the queue, in order. */
    method GetAllTasks() returns (r: seq<DownloadTask>)
      ensures r == queue
    {
      r := queue;
    }

    /** `get_failed_tasks` */
    method GetFailedTasks() returns (r: seq<DownloadTask>)
      ensures r == WithStatus(queue, Failed)
    {
      r := WithStatus(queue, Failed);
    }

    /** `get_completed_tasks` */
    method GetCompletedTasks() returns (r: seq<DownloadTask>)
      ensures r == WithStatus(queue, Completed)
    {
      r := WithStatus(queue, Completed);
    }

    /** `retry_failed_download` */
    method RetryFailedDownload(id: string) returns (ok: bool)
      requires Valid()
      modifies this
      ensures Valid()
      ensures var i := IndexOfId(old(queue), id);
        ok <==> i < |old(queue)| && (old(queue)[i].status == Failed || old(queue)[i].status == Cancelled)
      ensures var i := IndexOfId(old(queue), id);
        ok ==> queue == old(queue)[i := ResetForRetry(old(queue)[i])]
      ensures !ok ==> queue == old(queue)
      ensures esdeMode == old(esdeMode) && isPaused == old(isPaused) && isRunning == old(isRunning)
      ensures cancelRequested == old(cancelRequested)
    {
      var i := FindIndex(id);
      if i == |queue| {
        return false;
      }
      if queue[i].status != Failed && queue[i].status != Cancelled {
        return false;
      }
      queue := queue[i := ResetForRetry(queue[i])];
      ok := true;
    }

    /** `verify_file_integrity`, given what is at the task's destination.  An
        unreadable file makes the hashing raise, which is the `Err` result. */
    method VerifyFileIntegrity(id: string, expected: string, file: FileState, hash: seq<Byte> -> string)
      returns (r: Result<bool>)
      requires Valid()
      modifies this
      ensures Valid()
      ensures var i := IndexOfId(old(queue), id);
        if i < |old(queue)| && old(queue)[i].status == Completed then
          queue == old(queue)[i := old(queue)[i].(checksum := Some(expected))]
          && r == VerifyChecksum(Some(expected), file, hash)
        else
          queue == old(queue) && r == Ok(false)
      ensures esdeMode == old(esdeMode) && isPaused == old(isPaused) && isRunning == old(isRunning)
      ensures cancelRequested == old(cancelRequested)
    {
      var i := FindIndex(id);
      if i == |queue| || queue[i].status != Completed {
        return Ok(false);
      }
      queue := queue[i := queue[i].(checksum := Some(expected))];
      r := VerifyChecksum(Some(expected), file, hash);
    }

    /** The index of the first PENDING task, or the queue length. */
    method FindPending() returns (i: nat)
      ensures i == FirstPending(queue)
    {
      i := 0;
      while i < |queue| && queue[i].status != Pending
        invariant i <= |queue|
        invariant forall k :: 0 <= k < i ==> queue[k].status != Pending
      {
        i := i + 1;
      }
      if i < |queue| {
        FirstPendingIsFirst(queue, i);
      } else {
        NoPendingAtEnd(queue);
      }
    }

    /** `start_downloads`, run to its end.  Already running: nothing happens.
        Paused: the run starts and waits at the pause (`suspended`).
        Otherwise the loop runs as `RunLoop` says; the yields and the waits
        are the returned events. */
    method StartDownloads(oracle: (DownloadTask, nat) -> AttemptOutcome, hash: seq<Byte> -> string)
      returns (events: seq<RunEvent>, suspended: bool)
      requires Valid()
      modifies this
      ensures Valid()
      ensures old(isRunning) ==>
        events == [] && !suspended && queue == old(queue) && isRunning && cancelRequested == old(cancelRequested)
      ensures !old(isRunning) && old(isPaused) ==>
        events == [] && suspended && queue == old(queue) && isRunning && !cancelRequested
      ensures !old(isRunning) && !old(isPaused) ==>
        var r := RunLoop(old(queue), 0, oracle, maxRetries, downloadDelay, hash);
        !suspended && queue == r.queue && events == r.events && !isRunning && cancelRequested == r.cancelled
      ensures esdeMode == old(esdeMode) && isPaused == old(isPaused)
    {
      events, suspended := [], false;
      if isRunning {
        return;
      }
      isRunning := true;
      cancelRequested := false;
      if isPaused {
        suspended := true;
        return;
      }
      events := RunQueue(oracle, hash);
    }

    /** The processing loop of `start_downloads`, once the service runs and is
        not paused. */
    method RunQueue(oracle: (DownloadTask, nat) -> AttemptOutcome, hash: seq<Byte> -> string)
      returns (events: seq<RunEvent>)
      requires Valid() && isRunning && !cancelRequested && !isPaused
      modifies this
      ensures Valid()
      ensures var r := RunLoop(old(queue), 0, oracle, maxRetries, downloadDelay, hash);
        queue == r.queue && events == r.events && !isRunning && cancelRequested == r.cancelled
      ensures esdeMode == old(esdeMode) && isPaused == old(isPaused)
    {
      ghost var q0 := queue;
      events := [];
      var n: nat := 0;
      var i := FindPending();
      while i < |queue|
        invariant Valid()
        invariant i == FirstPending(queue)
        invariant isRunning && !cancelRequested && !isPaused && esdeMode == old(esdeMode)
        invariant RunLoop(q0, 0, oracle, maxRetries, downloadDelay, hash)
          == Glue(events, RunLoop(queue, n, oracle, maxRetries, downloadDelay, hash))
        decreases Budget(queue, maxRetries)
      {
        var q := queue;
        var res := RunStep(i, n, oracle, hash);
        RunLoopStep(q, n, oracle, maxRetries, downloadDelay, hash);
        if res.Interrupted? {
          return;
        }
        BudgetShrinks(q, i, res, maxRetries);
        GlueGlue(events, StepEvents(res, downloadDelay), RunLoop(q[i := res.task], n + 1, oracle, maxRetries, downloadDelay, hash));
        events := events + StepEvents(res, downloadDelay);
        n := n + 1;
        i := FindPending();
      }
      RunLoopDone(queue, n, oracle, maxRetries, downloadDelay, hash);
      isRunning := false;
    }

    /** One turn of the loop: the first PENDING task is marked DOWNLOADING and
        attempted; its result takes its place, and an observed cancellation
        cancels the queue as `cancel_downloads` does. */
    method RunStep(i: nat, n: nat, oracle: (DownloadTask, nat) -> AttemptOutcome, hash: seq<Byte> -> string)
      returns (res: AttemptResult)
      requires Valid() && isRunning && !cancelRequested
      requires i == FirstPending(queue) < |queue|
      modifies this
      ensures Valid()
      ensures var t := old(queue)[i].(status := Downloading);
        res == Attempt(t, oracle(t, n), maxRetries, downloadDelay, hash)
      ensures res.Settled? ==> queue == old(queue)[i := res.task] && isRunning && !cancelRequested
      ensures res.Interrupted? ==> queue == CancelAll(old(queue)[i := res.task]) && !isRunning && cancelRequested
      ensures esdeMode == old(esdeMode) && isPaused == old(isPaused)
    {
      var q := queue;
      var t := q[i].(status := Downloading);
      queue := q[i := t];
      res := Attempt(t, oracle(t, n), maxRetries, downloadDelay, hash);
      assert res.task.checksum == q[i].checksum;
      queue := q[i := res.task];
      if res.Interrupted? {
        CancelDownloads();
      }
    }
  }

  lemma {:induction false} IndexOfIdIsFirst(q: seq<DownloadTask>, id: string, i: nat)
    requires i <= |q|
    requires i < |q| ==> q[i].taskId == id
    requires forall k :: 0 <= k < i ==> q[k].taskId != id
    ensures IndexOfId(q, id) == i
  {
    if q != [] && i > 0 {
      IndexOfIdIsFirst(q[1..], id, i - 1);
    }
  }

  lemma {:induction false} NoPendingAtEnd(q: seq<DownloadTask>)
    requires forall k :: 0 <= k < |q| ==> q[k].status != Pending
    ensures FirstPending(q) == |q|
  {
    if q != [] {
      NoPendingAtEnd(q[1..]);
    }
  }

  /** One more task in the report: one more in all, one more under its
      status (none for CANCELLED, which is not reported), and its bytes added. */
  function Tally(s: QueueStatus, t: DownloadTask): QueueStatus
  {
    QueueStatus(s.totalTasks + 1,
      s.pendingTasks + (if t.status == Pending then 1 else 0),
      s.downloadingTasks + (if t.status == Downloading then 1 else 0),
      s.completedTasks + (if t.status == Completed then 1 else 0),
      s.failedTasks + (if t.status == Failed then 1 else 0),
      s.pausedTasks + (if t.status == Paused then 1 else 0),
      s.totalBytes + t.totalBytes,
      s.downloadedBytes + t.bytesDownloaded)
  }

  lemma StatusOfSnoc(q: seq<DownloadTask>, t: DownloadTask)
    ensures StatusOf(q + [t]) == Tally(StatusOf(q), t)
  {
    CountStatusConcat(q, [t], Pending);
    CountStatusConcat(q, [t], Downloading);
    CountStatusConcat(q, [t], Completed);
    CountStatusConcat(q, [t], Failed);
    CountStatusConcat(q, [t], Paused);
    SumsConcat(q, [t]);
  }
}
