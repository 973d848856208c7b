/**
 * The values the download manager works with and the pure rules it applies:
 * task statuses and records, the queue summary, the retry backoff, archive
 * detection by magic bytes, checksum comparison, the legacy destination, and
 * where each member of a downloaded archive is extracted to.
 */
module DownloadModel {
  import opened Common
  import opened Paths
  import opened Models
  import opened EsdeMapping
  import opened EsdeCompat

  datatype DownloadStatus = Pending | Downloading | Paused | Completed | Failed | Cancelled

  /** One queued download.  The source's `download_speed` (a wall-clock float)
      is not part of the record. */
  datatype DownloadTask = DownloadTask(
    game: GameData,
    disc: DiscInfo,
    destination: Path,
    taskId: string,
    status: DownloadStatus,
    bytesDownloaded: int,
    totalBytes: int,
    errorMessage: Option<string>,
    checksum: Option<string>,
    retryCount: nat)

  datatype QueueStatus = QueueStatus(
    totalTasks: nat,
    pendingTasks: nat,
    downloadingTasks: nat,
    completedTasks: nat,
    failedTasks: nat,
    pausedTasks: nat,
    totalBytes: int,
    downloadedBytes: int)

  // ---------------------------------------------------------------------------
  // Queue summaries

  function CountStatus(q: seq<DownloadTask>, s: DownloadStatus): (n: nat)
    ensures n <= |q|
    ensures n == 0 <==> forall k :: 0 <= k < |q| ==> q[k].status != s
  {
    if q == [] then 0 else (if q[0].status == s then 1 else 0) + CountStatus(q[1..], s)
  }

  function SumTotal(q: seq<DownloadTask>): int
  {
    if q == [] then 0 else q[0].totalBytes + SumTotal(q[1..])
  }

  function SumDownloaded(q: seq<DownloadTask>): int
  {
    if q == [] then 0 else q[0].bytesDownloaded + SumDownloaded(q[1..])
  }

  /** What `get_queue_status` reports for a queue. */
  function StatusOf(q: seq<DownloadTask>): QueueStatus
  {
    QueueStatus(|q|, CountStatus(q, Pending), CountStatus(q, Downloading), CountStatus(q, Completed),
      CountStatus(q, Failed), CountStatus(q, Paused), SumTotal(q), SumDownloaded(q))
  }

  /** The five reported counters and the unreported cancelled count partition
      the queue. */
  lemma {:induction false} StatusPartition(q: seq<DownloadTask>)
    ensures StatusOf(q).totalTasks == StatusOf(q).pendingTasks + StatusOf(q).downloadingTasks
      + StatusOf(q).completedTasks + StatusOf(q).failedTasks + StatusOf(q).pausedTasks
      + CountStatus(q, Cancelled)
  {
    if q != [] {
      StatusPartition(q[1..]);
    }
  }

  lemma {:induction false} CountStatusConcat(a: seq<DownloadTask>, b: seq<DownloadTask>, s: DownloadStatus)
    ensures CountStatus(a + b, s) == CountStatus(a, s) + CountStatus(b, s)
  {
    if a == [] {
      assert a + b == b;
    } else {
      CountStatusConcat(a[1..], b, s);
      assert (a + b)[1..] == a[1..] + b;
    }
  }

  lemma {:induction false} SumsConcat(a: seq<DownloadTask>, b: seq<DownloadTask>)
    ensures SumTotal(a + b) == SumTotal(a) + SumTotal(b)
    ensures SumDownloaded(a + b) == SumDownloaded(a) + SumDownloaded(b)
  {
    if a == [] {
      assert a + b == b;
    } else {
      SumsConcat(a[1..], b);
      assert (a + b)[1..] == a[1..] + b;
    }
  }

  /** The tasks with one status, in queue order (`get_failed_tasks`,
      `get_completed_tasks`). */
  function WithStatus(q: seq<DownloadTask>, s: DownloadStatus): (r: seq<DownloadTask>)
    ensures |r| == CountStatus(q, s)
    ensures forall k :: 0 <= k < |r| ==> r[k].status == s && r[k] in q
    ensures forall k :: 0 <= k < |q| && q[k].status == s ==> q[k] in r
    ensures Subsequence(r, q)
  {
    if q == [] then []
    else if q[0].status == s then [q[0]] + WithStatus(q[1..], s)
    else WithStatus(q[1..], s)
  }

  /** The index of the first task with this id, or `|q|`. */
  function IndexOfId(q: seq<DownloadTask>, id: string): (i: nat)
    ensures i <= |q|
    ensures i < |q| ==> q[i].taskId == id
    ensures forall k :: 0 <= k < i ==> q[k].taskId != id
  {
    if q == [] then 0 else if q[0].taskId == id then 0 else 1 + IndexOfId(q[1..], id)
  }

  /** `get_task`: the first task with this id. */
  function FindTask(q: seq<DownloadTask>, id: string): (r: Option<DownloadTask>)
    ensures r.None? <==> forall k :: 0 <= k < |q| ==> q[k].taskId != id
    ensures r.Some? ==> r.value.taskId == id && r.value == q[IndexOfId(q, id)]
  {
    var i := IndexOfId(q, id);
    if i == |q| then None else Some(q[i])
  }

  /** The index of the first PENDING task, or `|q|`. */
  function FirstPending(q: seq<DownloadTask>): (i: nat)
    ensures i <= |q|
    ensures i < |q| ==> q[i].status == Pending
    ensures forall k :: 0 <= k < i ==> q[k].status != Pending
  {
    if q == [] then 0 else if q[0].status == Pending then 0 else 1 + FirstPending(q[1..])
  }

  // ---------------------------------------------------------------------------
  // Status relabelling by pause, resume and cancel

  function Relabel(t: DownloadTask, from: DownloadStatus, to: DownloadStatus): DownloadTask
  {
    if t.status == from then t.(status := to) else t
  }

  function RelabelAll(q: seq<DownloadTask>, from: DownloadStatus, to: DownloadStatus): (r: seq<DownloadTask>)
    ensures |r| == |q|
    ensures forall k :: 0 <= k < |q| ==> r[k] == Relabel(q[k], from, to)
  {
    Map(q, (t: DownloadTask) => Relabel(t, from, to))
  }

  /** `cancel_downloads` on one task: every unfinished task becomes CANCELLED. */
  function CancelTask(t: DownloadTask): DownloadTask
  {
    if t.status == Pending || t.status == Downloading || t.status == Paused then t.(status := Cancelled) else t
  }

  function CancelAll(q: seq<DownloadTask>): (r: seq<DownloadTask>)
    ensures |r| == |q|
    ensures forall k :: 0 <= k < |q| ==> r[k] == CancelTask(q[k])
  {
    Map(q, CancelTask)
  }

  /** Relabelling changes only the status: ids, order and byte counts stay. */
  lemma RelabelKeepsRest(q: seq<DownloadTask>, from: DownloadStatus, to: DownloadStatus)
    ensures forall k :: 0 <= k < |q| ==>
      RelabelAll(q, from, to)[k] == q[k].(status := RelabelAll(q, from, to)[k].status)
    ensures forall k :: 0 <= k < |q| ==>
      RelabelAll(q, from, to)[k].status == (if q[k].status == from then to else q[k].status)
  {
  }

  /** Pause then resume restores a queue that held no PAUSED task. */
  lemma PauseResumeRestores(q: seq<DownloadTask>)
    requires forall k :: 0 <= k < |q| ==> q[k].status != Paused
    ensures RelabelAll(RelabelAll(q, Downloading, Paused), Paused, Downloading) == q
  {
  }

  /** After pausing no task is DOWNLOADING; after resuming none is PAUSED. */
  lemma PauseResumeCounts(q: seq<DownloadTask>)
    ensures CountStatus(RelabelAll(q, Downloading, Paused), Downloading) == 0
    ensures CountStatus(RelabelAll(q, Paused, Downloading), Paused) == 0
  {
  }

  /** After cancelling, only COMPLETED, FAILED and CANCELLED tasks remain, and
      the COMPLETED and FAILED ones are those that were there before. */
  lemma CancelAllOutcome(q: seq<DownloadTask>)
    ensures forall k :: 0 <= k < |q| ==>
      var s := CancelAll(q)[k].status; s == Completed || s == Failed || s == Cancelled
    ensures forall k :: 0 <= k < |q| && (q[k].status == Completed || q[k].status == Failed) ==> CancelAll(q)[k] == q[k]
    ensures CountStatus(CancelAll(q), Pending) == 0
  {
  }

  /** `clear_queue`: keep exactly the COMPLETED and FAILED tasks, in order. */
  function IsFinished(t: DownloadTask): bool { t.status == Completed || t.status == Failed }

  function ClearedQueue(q: seq<DownloadTask>): (r: seq<DownloadTask>)
    ensures forall k :: 0 <= k < |r| ==> IsFinished(r[k]) && r[k] in q
    ensures CountStatus(r, Completed) == CountStatus(q, Completed)
    ensures CountStatus(r, Failed) == CountStatus(q, Failed)
    ensures |r| == CountStatus(q, Completed) + CountStatus(q, Failed)
    ensures Subsequence(r, q)
    ensures r == Filter(q, IsFinished)
  {
    if q == [] then []
    else if IsFinished(q[0]) then [q[0]] + ClearedQueue(q[1..])
    else ClearedQueue(q[1..])
  }

  /** `remove_from_queue`: the queue with its first task of this id removed. */
  function RemovedQueue(q: seq<DownloadTask>, id: string): (r: seq<DownloadTask>)
    ensures IndexOfId(q, id) == |q| ==> r == q
    ensures IndexOfId(q, id) < |q| ==>
      |r| == |q| - 1 && r == q[..IndexOfId(q, id)] + q[IndexOfId(q, id) + 1..]
  {
    var i := IndexOfId(q, id);
    if i == |q| then q else q[..i] + q[i + 1..]
  }

  // ---------------------------------------------------------------------------
  // Retry policy

  /** The failure text counts as rate limiting when it mentions 429. */
  function IsRateLimited(msg: string): bool
  {
    Find(msg, "429") || Find(msg, "Too Many Requests")
  }

  function Pow2(n: nat): (r: real)
    ensures r >= 1.0
  {
    if n == 0 then 1.0 else 2.0 * Pow2(n - 1)
  }

  /** The wait before a retry, after `retry` failures: doubling from `delay`
      and capped at 30 s for rate limiting, linear in `retry` otherwise. */
  function Backoff(msg: string, delay: real, retry: nat): (r: real)
    ensures IsRateLimited(msg) ==> r == RateLimitedWait(delay, retry)
    ensures !IsRateLimited(msg) ==> r == delay * retry as real
    ensures delay >= 0.0 ==> r >= 0.0
  {
    if IsRateLimited(msg) then RateLimitedWait(delay, retry) else delay * retry as real
  }

  function RateLimitedWait(delay: real, retry: nat): (r: real)
    ensures r <= 30.0 && r <= delay * Pow2(retry)
    ensures r == 30.0 || r == delay * Pow2(retry)
    ensures delay >= 0.0 ==> r >= 0.0
  {
    MinReal(30.0, delay * Pow2(retry))
  }

  /** With a base delay of one second the rate-limited waits after one, two,
      three and five failures are 2, 4, 8 and the 30 s cap. */
  lemma RateLimitedWaits()
    ensures RateLimitedWait(1.0, 1) == 2.0
    ensures RateLimitedWait(1.0, 2) == 4.0
    ensures RateLimitedWait(1.0, 3) == 8.0
    ensures RateLimitedWait(1.0, 5) == 30.0
  {
    assert Pow2(5) == 32.0;
  }

  /** Both waits grow with the retry count (the rate-limited one up to its cap). */
  lemma BackoffMonotone(msg: string, delay: real, a: nat, b: nat)
    requires delay >= 0.0 && a <= b
    ensures Backoff(msg, delay, a) <= Backoff(msg, delay, b)
  {
    if IsRateLimited(msg) {
      Pow2Monotone(a, b);
      ScaleMonotone(delay, Pow2(a), Pow2(b));
      var x, y := delay * Pow2(a), delay * Pow2(b);
      assert x <= y;
      var wa, wb := RateLimitedWait(delay, a), RateLimitedWait(delay, b);
      assert wa == MinReal(30.0, x) && wb == MinReal(30.0, y);
    } else {
      ScaleMonotone(delay, a as real, b as real);
    }
  }

  lemma ScaleMonotone(x: real, a: real, b: real)
    requires x >= 0.0 && a <= b
    ensures x * a <= x * b
  {
    assert x * b - x * a == x * (b - a);
  }

  lemma {:induction false} Pow2Monotone(a: nat, b: nat)
    requires a <= b
    ensures Pow2(a) <= Pow2(b)
    decreases b
  {
    if a < b {
      Pow2Monotone(a, b - 1);
    }
  }

  /** What one failed attempt does to a task: count it, record the message, and
      requeue it with a wait while retries remain, otherwise mark it FAILED. */
  function AfterFailure(t: DownloadTask, msg: string, maxRetries: int, delay: real): (r: (DownloadTask, Option<real>))
    ensures r.0 == t.(retryCount := t.retryCount + 1, errorMessage := Some(msg), status := r.0.status)
    ensures r.0.status == Pending <==> t.retryCount + 1 < maxRetries
    ensures r.0.status != Pending ==> r.0.status == Failed && r.1.None?
    ensures r.0.status == Pending ==> r.1 == Some(Backoff(msg, delay, t.retryCount + 1))
  {
    var retry := t.retryCount + 1;
    var t1 := t.(retryCount := retry, errorMessage := Some(msg));
    if retry < maxRetries then (t1.(status := Pending), Some(Backoff(msg, delay, retry)))
    else (t1.(status := Failed), None)
  }

  /** With three allowed attempts, a task failing every time waits after its
      first and second failures and then fails for good. */
  lemma ThreeRetries(t: DownloadTask, msg: string, delay: real)
    requires t.retryCount == 0
    ensures var (t1, w1) := AfterFailure(t, msg, 3, delay);
      t1.status == Pending && w1.Some?
      && var (t2, w2) := AfterFailure(t1, msg, 3, delay);
      t2.status == Pending && w2.Some?
      && var (t3, w3) := AfterFailure(t2, msg, 3, delay);
      t3.status == Failed && w3.None? && t3.retryCount == 3
  {
  }

  // ---------------------------------------------------------------------------
  // Archive detection and checksums

  datatype ArchiveKind = Zip | SevenZip

  /** The first two bytes of a ZIP local file header signature ("PK"). */
  const ZipMagic: seq<Byte> := [0x50, 0x4B]

  /** The 7z signature. */
  const SevenZipMagic: seq<Byte> := [0x37, 0x7A, 0xBC, 0xAF, 0x27, 0x1C]

  predicate HasPrefix(b: seq<Byte>, p: seq<Byte>)
  {
    |p| <= |b| && b[..|p|] == p
  }

  /** `_detect_archive_type`: look at the first eight bytes, then at the suffix. */
  function DetectArchiveType(file: FileState, suffix: string): (r: Option<ArchiveKind>)
    ensures !file.Present? ==> r.None?
    ensures file.Present? && HasPrefix(file.bytes, ZipMagic) ==> r == Some(Zip)
    ensures file.Present? && !HasPrefix(file.bytes, ZipMagic) && HasPrefix(file.bytes, SevenZipMagic)
      ==> r == Some(SevenZip)
    ensures file.Present? && !HasPrefix(file.bytes, ZipMagic) && !HasPrefix(file.bytes, SevenZipMagic)
      ==> r == (if Lower(suffix) == ".zip" then Some(Zip) else if Lower(suffix) == ".7z" then Some(SevenZip) else None)
  {
    match file
    case Missing => None
    case Unreadable(_) => None
    case Present(bytes) =>
      var magic := bytes[..Min(8, |bytes|)];
      assert HasPrefix(magic, ZipMagic) <==> HasPrefix(bytes, ZipMagic);
      assert HasPrefix(magic, SevenZipMagic) <==> HasPrefix(bytes, SevenZipMagic);
      if HasPrefix(magic, ZipMagic) then Some(Zip)
      else if HasPrefix(magic, SevenZipMagic) then Some(SevenZip)
      else
        var s := Lower(suffix);
        if s == ".zip" then Some(Zip) else if s == ".7z" then Some(SevenZip) else None
  }

  /** The content wins over the name: a ZIP saved as ".7z" is a ZIP, and a file
      shorter than two bytes is only judged by its name. */
  lemma DetectMagicWins(bytes: seq<Byte>, suffix: string)
    requires |bytes| >= 2 && bytes[0] == 0x50 && bytes[1] == 0x4B
    ensures DetectArchiveType(Present(bytes), suffix) == Some(Zip)
  {
    assert bytes[..2] == ZipMagic;
  }

  lemma DetectShortFile(b: Byte, suffix: string)
    ensures DetectArchiveType(Present([b]), suffix)
      == (if Lower(suffix) == ".zip" then Some(Zip) else if Lower(suffix) == ".7z" then Some(SevenZip) else None)
  {
  }

  /** `_verify_checksum`: no checksum passes, a missing file fails, an
      unreadable one raises, otherwise the hex digests are compared ignoring
      case. */
  function VerifyChecksum(checksum: Option<string>, file: FileState, hash: seq<Byte> -> string): (r: Result<bool>)
    ensures checksum.None? || checksum.value == "" ==> r == Ok(true)
    ensures checksum.Some? && checksum.value != "" && file.Missing? ==> r == Ok(false)
    ensures checksum.Some? && checksum.value != "" && file.Unreadable? ==> r.Err?
    ensures checksum.Some? && checksum.value != "" && file.Present? ==>
      r == Ok(Lower(hash(file.bytes)) == Lower(checksum.value))
  {
    if checksum.None? || checksum.value == "" then Ok(true)
    else match file
      case Missing => Ok(false)
      case Unreadable(reason) => Err(reason)
      case Present(bytes) => Ok(Lower(hash(bytes)) == Lower(checksum.value))
  }

  lemma LowerUpper(s: string)
    ensures Lower(Upper(s)) == Lower(s)
  {
  }

  /** The comparison ignores the case of the expected digest. */
  lemma ChecksumCaseInsensitive(c: string, file: FileState, hash: seq<Byte> -> string)
    requires file.Present?
    ensures VerifyChecksum(Some(Upper(c)), file, hash) == VerifyChecksum(Some(c), file, hash)
  {
    LowerUpper(c);
  }

  // ---------------------------------------------------------------------------
  // Destinations

  predicate LegacyKeeps(c: char) { IsAlnum(c) || c == ' ' || c == '-' || c == '_' }

  /** The legacy (non-ES-DE) title: letters, digits, space, '-' and '_' are
      kept, everything else becomes '_'. */
  function LegacySafeTitle(title: string): (r: string)
    ensures |r| == |title|
    ensures forall i :: 0 <= i < |r| ==> LegacyKeeps(r[i])
    ensures forall i :: 0 <= i < |r| ==> (r[i] == title[i] <==> LegacyKeeps(title[i]))
  {
    seq(|title|, i requires 0 <= i < |title| => if LegacyKeeps(title[i]) then title[i] else '_')
  }

  lemma LegacySafeTitleIdempotent(title: string)
    ensures LegacySafeTitle(LegacySafeTitle(title)) == LegacySafeTitle(title)
  {
  }

  /** base / category / safe title / "disc_{n}.zip" */
  function LegacyDestination(base: Path, game: GameData, disc: DiscInfo): Path
  {
    JoinPath(JoinPath(JoinPath(base, game.category), LegacySafeTitle(game.title)),
      "disc_" + disc.discNumber + ".zip")
  }

  /** The destination a new task gets: the ES-DE ROM path with a ".zip"
      extension, or the legacy path. */
  function NewTaskDestination(base: Path, esdeMode: bool, game: GameData, disc: DiscInfo): Path
  {
    if esdeMode then GenerateRomPath(base, game.category, game.title, Some(disc.discNumber), ".zip")
    else LegacyDestination(base, game, disc)
  }

  /** `task_id`: title, disc, media id and a random token joined by '_'. */
  function TaskId(game: GameData, disc: DiscInfo, token: string): string
  {
    game.title + "_" + disc.discNumber + "_" + disc.mediaId + "_" + token
  }

  /** The task `add_to_queue` creates for a disc, given the destination the
      naming rule picks and the random part of the id. */
  function NewTask(destination: Path, game: GameData, disc: DiscInfo, token: string): (t: DownloadTask)
    ensures t.status == Pending && t.bytesDownloaded == 0 && t.retryCount == 0
    ensures t.totalBytes == (if disc.fileSize.Some? then disc.fileSize.value else 0)
    ensures t.errorMessage.None? && t.checksum.None?
    ensures t.game == game && t.disc == disc && t.destination == destination
  {
    DownloadTask(game, disc, destination, TaskId(game, disc, token),
      Pending, 0, if disc.fileSize.Some? then disc.fileSize.value else 0, None, None, 0)
  }

  // ---------------------------------------------------------------------------
  // Extraction plan

  /** The extensions always treated as ROM files when extracting a ZIP. */
  const ZipRomExtensions: seq<string> := [
    ".iso", ".bin", ".cue", ".chd", ".rvz", ".gcz", ".wbfs",
    ".nds", ".gba", ".gbc", ".gb", ".nes", ".sfc", ".smc",
    ".n64", ".z64", ".v64", ".md", ".gen", ".sms", ".gg",
    ".pce", ".ngp", ".ngc", ".vb", ".a26", ".a52", ".a78",
    ".j64", ".jag", ".lnx", ".32x", ".cdi", ".gdi"]

  /** The same list for a 7z archive, which also has ".ciso". */
  const SevenZipRomExtensions: seq<string> := [
    ".iso", ".bin", ".cue", ".chd", ".rvz", ".gcz", ".wbfs", ".ciso",
    ".nds", ".gba", ".gbc", ".gb", ".nes", ".sfc", ".smc",
    ".n64", ".z64", ".v64", ".md", ".gen", ".sms", ".gg",
    ".pce", ".ngp", ".ngc", ".vb", ".a26", ".a52", ".a78",
    ".j64", ".jag", ".lnx", ".32x", ".cdi", ".gdi"]

  function RomExtensions(kind: ArchiveKind): seq<string>
  {
    match kind
    case Zip => ZipRomExtensions
    case SevenZip => SevenZipRomExtensions
  }

  predicate IsRomFile(kind: ArchiveKind, category: string, ext: string)
    ensures ext in RomExtensions(kind) ==> IsRomFile(kind, category, ext)
    ensures GetSystemMapping(category).None? ==>
      (IsRomFile(kind, category, ext) <==> ext in [".zip", ".7z"] || ext in RomExtensions(kind))
  {
    ext in GetExpectedExtensions(category) || ext in RomExtensions(kind)
  }

  /** Where one extracted file goes: ROM files are renamed to the ES-DE ROM
      path with their own (lowercased) extension; other files keep their name
      in the extraction directory. */
  datatype Placement = Placement(member: string, destination: Path, renamed: bool)

  function PlaceMember(kind: ArchiveKind, base: Path, game: GameData, disc: DiscInfo, member: string): (r: Placement)
    ensures r.member == member
    ensures r.renamed <==> IsRomFile(kind, game.category, Lower(Suffix(Parse(member))))
  {
    var p := Parse(member);
    var ext := Lower(Suffix(p));
    if IsRomFile(kind, game.category, ext) then
      Placement(member, GenerateRomPath(base, game.category, game.title, Some(disc.discNumber), ext), true)
    else
      Placement(member, JoinPath(GenerateExtractionDirectory(base, game.category, game.title, Some(disc.discNumber)), Name(p)), false)
  }

  /** The ZIP plan: every member not ending in '/' is placed, in order. */
  function ZipPlan(base: Path, game: GameData, disc: DiscInfo, members: seq<string>): (r: seq<Placement>)
    ensures |r| <= |members|
    ensures forall k :: 0 <= k < |r| ==> !EndsWith(r[k].member, "/") && r[k].member in members
  {
    var files := Filter(members, IsFileMember);
    Map(files, (m: string) => PlaceMember(Zip, base, game, disc, m))
  }

  predicate IsFileMember(m: string) { !EndsWith(m, "/") }

  /** The names of the extracted entries that are not directories, in order. */
  function FileEntries(entries: seq<(string, bool)>): (r: seq<string>)
    ensures |r| <= |entries|
    ensures forall k :: 0 <= k < |r| ==> (r[k], false) in entries
  {
    if entries == [] then []
    else
      var rest := FileEntries(entries[1..]);
      assert forall k :: 0 <= k < |rest| ==> (rest[k], false) in entries[1..];
      if entries[0].1 then rest else [entries[0].0] + rest
  }

  /** The 7z plan: every extracted entry that is not a directory is placed, in order. */
  function SevenZipPlan(base: Path, game: GameData, disc: DiscInfo, entries: seq<(string, bool)>): (r: seq<Placement>)
    ensures |r| <= |entries|
    ensures forall k :: 0 <= k < |r| ==> (r[k].member, false) in entries
  {
    var files := FileEntries(entries);
    Map(files, (m: string) => PlaceMember(SevenZip, base, game, disc, m))
  }

  /** Two ROM members with the same extension land on the same path, so the
      later one overwrites the earlier. */
  lemma RomMembersCollide(kind: ArchiveKind, base: Path, game: GameData, disc: DiscInfo, m1: string, m2: string)
    requires Lower(Suffix(Parse(m1))) == Lower(Suffix(Parse(m2)))
    requires PlaceMember(kind, base, game, disc, m1).renamed
    ensures PlaceMember(kind, base, game, disc, m2).renamed
    ensures PlaceMember(kind, base, game, disc, m1).destination == PlaceMember(kind, base, game, disc, m2).destination
  {
  }

  /** A suffix taken from one path segment holds no '/'. */
  lemma SuffixNoSlash(member: string)
    ensures '/' !in Lower(Suffix(Parse(member)))
  {
    var p := Parse(member);
    var n := Name(p);
    assert '/' !in n;
    var s := SuffixOfName(n);
    assert forall i :: 0 <= i < |s| ==> s[i] == n[|n| - |s| + i];
  }

  /** Every placed file lands directly in the extraction directory, when the
      system folder is one segment and the member has a name. */
  lemma PlacementInExtractionDir(kind: ArchiveKind, base: Path, game: GameData, disc: DiscInfo, member: string)
    requires Valid(base)
    requires ValidPart(GetEsdeFolder(game.category))
    requires Name(Parse(member)) != ""
    ensures Parent(PlaceMember(kind, base, game, disc, member).destination)
      == GenerateExtractionDirectory(base, game.category, game.title, Some(disc.discNumber))
  {
    var p := Parse(member);
    var ext := Lower(Suffix(p));
    var dir := GenerateExtractionDirectory(base, game.category, game.title, Some(disc.discNumber));
    if IsRomFile(kind, game.category, ext) {
      SuffixNoSlash(member);
      RomPathShape(base, game.category, game.title, Some(disc.discNumber), ext);
    } else {
      assert ValidPart(Name(p));
      ParentOfJoin(dir, Name(p));
    }
  }

  /** ".ciso" is a ROM extension for 7z archives but not for ZIP archives: for
      a system whose expected extensions lack it (Wii, say) a ZIP member
      "x.ciso" keeps its name while a 7z member is renamed. */
  lemma CisoDiffers(base: Path, game: GameData, disc: DiscInfo, member: string)
    requires Lower(Suffix(Parse(member))) == ".ciso"
    requires ".ciso" !in GetExpectedExtensions(game.category)
    ensures !PlaceMember(Zip, base, game, disc, member).renamed
    ensures PlaceMember(SevenZip, base, game, disc, member).renamed
  {
    CisoLists(game.category);
  }

  lemma CisoLists(category: string)
    requires ".ciso" !in GetExpectedExtensions(category)
    ensures !IsRomFile(Zip, category, ".ciso") && IsRomFile(SevenZip, category, ".ciso")
  {
    CisoNotZipRom();
    CisoSevenZipRom();
  }

  lemma CisoNotZipRom()
    ensures ".ciso" !in ZipRomExtensions
  {
  }

  lemma CisoSevenZipRom()
    ensures ".ciso" in SevenZipRomExtensions
  {
    assert SevenZipRomExtensions[7] == ".ciso";
  }
}
