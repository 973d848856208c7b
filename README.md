# A verified model of the Vimm's Lair scraper and downloader

This project models, in Dafny, the core of a terminal application that
scrapes game metadata from Vimm's Lair and downloads the games' files into an
ES-DE (EmulationStation Desktop Edition) ROM layout. It proves properties of
that model. The model restates what the application's code does, branch by
branch, and the proofs are about the model.

The modules follow the application's own files:

- `DownloadModel`, `DownloadManager` (`src/services/download_manager.py`):
  - the download queue engine, as a class whose queue is a sequence field,
    with add, remove, clear, pause, resume, cancel, retry and integrity checks;
  - the sequential processing loop of `start_downloads`, one download attempt
    at a time, and the retry backoff;
  - detection of archives by magic bytes or suffix, checksum comparison, and
    the renaming plan for the members of an extracted archive.
  The network, the file system and hashing are parameters. An oracle says how
  each attempt ended, and a hash function stands for SHA-256.
- `EsdeMapping`, `EsdeCompat` (`src/services/esde_compat.py`): the category
  table, file-name sanitising, ROM paths and extraction directories.
- `GameScraper` (`src/services/game_scraper.py`): which links count as games,
  the disc list, the download server, the order of the title strategies and
  the page-title pattern, the score filter, and the scraper's progress
  counters over a whole run. The site is a parameter, a function from URLs
  to already parsed pages.
- `Errors` (`src/services/errors.py`):
  - the error classes' suggestions and technical details;
  - the conversion of any raised exception;
  - the HTTP status messages and the user-message layout;
  - the error service, with its bounded history and its recovery states.
- `Config` (`src/services/config.py`): validation, the defaults, conversion
  to and from the stored JSON object, and the load and save decisions.
- `SettingsForm`, `ScrapingScreen`, `DataView`, `App`: the form logic of the
  settings and scraping screens, the search and display logic of the data
  view, and the application's state and navigation stack.
- `Common`, `Numbers`, `Paths`, `Models`: the Python string operations,
  `int()` and `float()` on text, POSIX `pathlib` paths and the shared records.
  Character classes are ASCII only.

Where the code disagrees with its own docstrings and declarations, the model
follows the code:

- `max_retries` is documented as the maximum number of retry attempts
  (`src/services/download_manager.py:84`). The code counts every failed
  attempt, including the first, against it (361-367). So with
  `max_retries = 3`, only the first two failures wait and retry, and the
  third marks the task failed with no wait (`Attempt`, `ThreeRetries`).
- `clear_queue` keeps exactly the completed and failed tasks, although its
  docstring speaks of clearing "pending tasks"
  (`src/services/download_manager.py:231`, `ClearQueue`).
- `src/models/config.py:8-13` declares a configuration record with five
  fields. `src/services/config.py` reads and writes eight. The model uses
  the eight-field record.

## Model

| member | source | states |
|---|---|---|
| EsdeCompat.Lookup | src/services/esde_compat.py:138 | `dict.get` over the table: None exactly when no row has the key, otherwise the value of a row with that key |
| EsdeCompat.MappingWellFormed | src/services/esde_compat.py:31-106 | every row of the mapping table is keyed by its own `vimm_category` |
| EsdeCompat.GetSystemMapping | src/services/esde_compat.py:151-160 | a found mapping belongs to the category asked for and has a lowercase folder; None exactly for categories missing from the table |
| EsdeCompat.GetSupportedSystems | src/services/esde_compat.py:302-308 | one name per table row, each of which has a mapping |
| EsdeCompat.FallbackFolder | src/services/esde_compat.py:143 | the fallback folder is no longer than the category, holds no space, no '-' and no uppercase letter |
| EsdeCompat.FallbackFolderFixed | src/services/esde_compat.py:143 | a category that is already lowercase with neither space nor '-' is its own fallback folder |
| EsdeCompat.FallbackFolderIdempotent | src/services/esde_compat.py:143 | applying the fallback rule twice is applying it once |
| EsdeCompat.FallbackExample | src/services/esde_compat.py:143 | "Unknown System" falls back to "unknown_system" |
| EsdeCompat.GetEsdeFolder | src/services/esde_compat.py:129-149 | the mapped folder for a known category, the fallback folder otherwise; never an uppercase letter |
| EsdeCompat.GetExpectedExtensions | src/services/esde_compat.py:287-299 | the mapping's extensions for a known category, (".zip", ".7z") otherwise |
| EsdeCompat.ReplaceInvalid | src/services/esde_compat.py:184-185 | each of `\ / : * ? " < > \|` becomes '_', every other character is kept, length unchanged |
| EsdeCompat.Collapse | src/services/esde_compat.py:188 | every maximal run of '_' and whitespace becomes one space; empty exactly for empty input |
| EsdeCompat.CollapseChars | src/services/esde_compat.py:188 | collapsing introduces no character except the space |
| EsdeCompat.CollapseShape | src/services/esde_compat.py:188 | after collapsing no '_', no whitespace other than single spaces, and no two spaces in a row |
| EsdeCompat.CollapseFixed | src/services/esde_compat.py:188 | text already in collapsed form is unchanged by the collapse |
| EsdeCompat.ReplaceCollapseStrip | src/services/esde_compat.py:184-191 | after replacing, collapsing and `strip(" .")` the text has no invalid character, is collapsed, and neither starts nor ends with a space or dot |
| EsdeCompat.UnknownGameClean | src/services/esde_compat.py:193-194 | the placeholder "Unknown Game" is a clean file name |
| EsdeCompat.Truncate | src/services/esde_compat.py:196-199 | cutting to 200 characters and stripping spaces and dots again leaves a clean name |
| EsdeCompat.Sanitize | src/services/esde_compat.py:162-203 | `sanitize_filename` always returns a clean name: non-empty, at most 200 characters, no invalid character, collapsed, no leading or trailing space or dot |
| EsdeCompat.SanitizeClean | src/services/esde_compat.py:162-203 | a clean title passes unchanged |
| EsdeCompat.SanitizeFixedIff | src/services/esde_compat.py:162-203 | a title is returned unchanged exactly when it is clean |
| EsdeCompat.SanitizeIdempotent | src/services/esde_compat.py:162-203 | sanitizing twice is sanitizing once |
| EsdeCompat.SanitizeShape | src/services/esde_compat.py:184-191 | the result holds no '_', no two adjacent spaces and none of the invalid characters |
| EsdeCompat.SanitizeExamples | src/services/esde_compat.py:162-203 | "Super Mario Bros" is kept; the empty title becomes "Unknown Game" |
| EsdeCompat.FirstDigitIndex | src/services/esde_compat.py:241 | the position of the first digit, or the length when there is none |
| EsdeCompat.DigitPrefix | src/services/esde_compat.py:241 | the longest run of digits at the start of the text |
| EsdeCompat.FirstDigitRun | src/services/esde_compat.py:241 | `re.search(r"(\d+)")`: None exactly when there is no digit, otherwise the maximal digit run at the first digit |
| EsdeCompat.DiscSuffixRule | src/services/esde_compat.py:239-244 | no disc suffix exactly for no disc, an empty label, a single-disc label (lowercased) or a label without digits; otherwise " (Disc N)" with N the first digit run |
| EsdeCompat.DiscSuffix | src/services/esde_compat.py:239-244 | no disc suffix without a label or for a single-disc label, and a suffix only for a label holding a digit |
| EsdeCompat.DiscOneQuirk | src/services/esde_compat.py:239-244 | "Disc 1" gets no suffix while "Disc 2" gets " (Disc 2)" |
| EsdeCompat.DiscOneNoSuffix | src/services/esde_compat.py:239 | "Disc 1" is a single-disc label |
| EsdeCompat.DiscTwoSuffix | src/services/esde_compat.py:239-244 | "Disc 2" gives " (Disc 2)" |
| EsdeCompat.NormalizeExtension | src/services/esde_compat.py:246-248 | an extension gets a leading dot exactly when it is non-empty and lacks one; the empty extension stays empty |
| EsdeCompat.DiscSuffixNoSlash | src/services/esde_compat.py:239-244 | the disc suffix never holds '/' |
| EsdeCompat.RomFileNameIsSegment | src/services/esde_compat.py:250-252 | the ROM file name is one valid path segment |
| EsdeCompat.RomPathShape | src/services/esde_compat.py:205-285 | the ROM path is base / folder / file name; its parent is the extraction directory and its name the file name |
| EsdeCompat.GenerateRomPath | src/services/esde_compat.py:205-263 | `generate_rom_path` is absolute for an absolute base and well formed for a well-formed base (its shape is RomPathShape) |
| EsdeCompat.GenerateExtractionDirectory | src/services/esde_compat.py:265-285 | `generate_extraction_directory` is absolute for an absolute base and well formed for a well-formed base; title and disc play no part |
| EsdeCompat.MappedFolderIsSegment | src/services/esde_compat.py:129-149 | every category's folder is one valid path segment |
| EsdeCompat.RomPathSuffix | src/services/esde_compat.py:246-252 | the ROM path's suffix is the normalised extension |
| EsdeCompat.RomFileNameSuffix | src/services/esde_compat.py:246-252 | the file name's suffix is the normalised extension |
| EsdeCompat.ExtensionDotFirst | src/services/esde_compat.py:246-248 | an extension whose only dot, if any, is its first character normalises to a dot followed by at least one character and no further dot |
| DownloadModel.CountStatus | src/services/download_manager.py:898-911 | the number of tasks in a status, at most the queue length and zero exactly when no task has it |
| DownloadModel.StatusPartition | src/services/download_manager.py:888-912 | `get_queue_status`: the total is the sum of the five counted statuses plus the cancelled tasks, which no counter reports |
| DownloadModel.CountStatusConcat | src/services/download_manager.py:898-911 | counting is additive over concatenated queues |
| DownloadModel.SumsConcat | src/services/download_manager.py:898-911 | the byte totals are additive over concatenated queues |
| DownloadModel.WithStatus | src/services/download_manager.py:1089-1103 | `get_failed_tasks`/`get_completed_tasks`: exactly the tasks of that status, one entry per counted task, as a subsequence of the queue, so in queue order |
| DownloadModel.IndexOfId | src/services/download_manager.py:217-218 | the position of the first task with the id, or the length when there is none |
| DownloadModel.FindTask | src/services/download_manager.py:914-926 | `get_task`: None exactly when no task has the id, otherwise the first task with it |
| DownloadModel.FirstPending | src/services/download_manager.py:270-274 | the first pending task, or the length when none is pending |
| DownloadModel.RelabelAll | src/services/download_manager.py:836-866 | every task is relabelled on its own, length kept |
| DownloadModel.CancelAll | src/services/download_manager.py:868-878 | `cancel_downloads` acts on every task on its own, length kept |
| DownloadModel.RelabelKeepsRest | src/services/download_manager.py:836-866 | relabelling changes only the status, and only of tasks in the `from` status |
| DownloadModel.PauseResumeRestores | src/services/download_manager.py:836-866 | on a queue with no paused task, pausing then resuming gives the queue back |
| DownloadModel.PauseResumeCounts | src/services/download_manager.py:836-866 | after pausing nothing is downloading; after resuming nothing is paused |
| DownloadModel.CancelAllOutcome | src/services/download_manager.py:868-878 | after cancelling every task is completed, failed or cancelled; completed and failed tasks are untouched; none is pending |
| DownloadModel.ClearedQueue | src/services/download_manager.py:237 | `clear_queue` keeps exactly the completed and failed tasks: the result is the comprehension's filter of the queue, a subsequence in queue order with one entry per finished task |
| DownloadModel.RemovedQueue | src/services/download_manager.py:208-228 | `remove_from_queue` drops the first task with the id and keeps the rest in order; an unknown id changes nothing |
| DownloadModel.Pow2 | src/services/download_manager.py:372 | `2 ** n` is at least 1 |
| DownloadModel.Backoff | src/services/download_manager.py:365-375 | the retry wait: the capped exponential wait for a rate-limit message, `delay * retry` otherwise; never negative for a non-negative delay |
| DownloadModel.RateLimitedWait | src/services/download_manager.py:372 | `min(30.0, delay * 2 ** retry)`: at most 30, at most the exponential value, and equal to one of them |
| DownloadModel.RateLimitedWaits | src/services/download_manager.py:372 | with a base delay of 1 s the waits after one, two, three and five failures are 2, 4, 8 and 30 |
| DownloadModel.BackoffMonotone | src/services/download_manager.py:365-375 | the wait never shrinks as the retry count grows |
| DownloadModel.Pow2Monotone | src/services/download_manager.py:372 | `2 ** a <= 2 ** b` for `a <= b` |
| DownloadModel.AfterFailure | src/services/download_manager.py:360-392 | a failed attempt counts a retry and records the message; the task goes back to pending with a wait exactly while retries remain, otherwise it fails with no wait |
| DownloadModel.ThreeRetries | src/services/download_manager.py:360-392 | with three allowed retries a fresh task is retried twice and fails on the third failure |
| DownloadModel.DetectArchiveType | src/services/download_manager.py:947-987 | `_detect_archive_type`: the zip magic wins, then the 7z magic, then the lowercased suffix; a missing file is no archive |
| DownloadModel.DetectMagicWins | src/services/download_manager.py:963-965 | a file starting with "PK" is a zip whatever its suffix |
| DownloadModel.DetectShortFile | src/services/download_manager.py:970-977 | a one-byte file is classified by its suffix alone |
| DownloadModel.VerifyChecksum | src/services/download_manager.py:989-1020 | no checksum passes; a missing file fails; an unreadable file is an error; otherwise the hashes are compared ignoring case |
| DownloadModel.ChecksumCaseInsensitive | src/services/download_manager.py:1010 | an uppercased expected checksum gives the same verdict |
| DownloadModel.LegacySafeTitle | src/services/download_manager.py:167 | the legacy title keeps letters, digits, space, '-' and '_' and replaces each other character by '_', length kept |
| DownloadModel.LegacySafeTitleIdempotent | src/services/download_manager.py:167 | making the legacy title safe twice is doing it once |
| DownloadModel.NewTask | src/services/download_manager.py:170-176 | a new task is pending, with nothing downloaded, no retries, no error and no checksum, and with the disc's size (0 when unknown) as its total |
| DownloadModel.PlaceMember | src/services/download_manager.py:497-520 | an archive member is renamed exactly when its lowercased suffix is a ROM extension for that archive kind |
| DownloadModel.IsRomFile | src/services/download_manager.py:505-511 | an extension in the archive kind's ROM list is always a ROM file, and for an unmapped category the expected list is ".zip" and ".7z" |
| DownloadModel.ZipPlan | src/services/download_manager.py:496-499 | only members not ending in '/' are placed, each one a member of the archive |
| DownloadModel.FileEntries | src/services/download_manager.py:642-644 | only the extracted entries that are not directories |
| DownloadModel.SevenZipPlan | src/services/download_manager.py:642-644 | only extracted files are placed |
| DownloadModel.RomMembersCollide | src/services/download_manager.py:513-520 | two ROM members with the same suffix are given the same destination |
| DownloadModel.SuffixNoSlash | src/services/download_manager.py:502 | a member's suffix holds no '/' |
| DownloadModel.PlacementInExtractionDir | src/services/download_manager.py:513-520 | every placed member lands in the extraction directory |
| DownloadModel.CisoDiffers | src/services/download_manager.py:505-510 | for a category that does not list ".ciso", a .ciso member is renamed from a 7z archive and not from a zip |
| DownloadModel.CisoLists | src/services/download_manager.py:505-510 | ".ciso" is a ROM extension only in the 7z list |
| DownloadManager.AccountAsWritten | src/services/download_manager.py:734-794 | as written, only the two byte fields change: an attempt's streamed bytes are added to what earlier attempts left in `bytes_downloaded`, and the total is the announced length once the response got that far |
| DownloadManager.BytesOverrunAsWritten | src/services/download_manager.py:794 | for every task whose count is not zero, a complete attempt of `len` bytes reports the earlier count plus `len`, more than the `len` it announced (100 + 1000 of 1000, say) |
| DownloadManager.Account | src/services/download_manager.py:794 | corrected accounting: only the two byte fields change; the downloaded count is this attempt's bytes and the total is the announced length when there is one |
| DownloadManager.AccountWithinLength | src/services/download_manager.py:794 | with corrected accounting, a stream no longer than the announced length never reports more bytes than the total, whatever earlier attempts left |
| DownloadManager.AccountFromZero | src/services/download_manager.py:794 | the code's accounting and the corrected one agree exactly when the count starts at zero, on every outcome |
| DownloadManager.Attempt | src/services/download_manager.py:299-400 | `_download_task`: identity and checksum kept; the bytes of this attempt added to the count earlier attempts left, and the total taken from the length header when there was a response; a cancellation cancels without counting a retry; success exactly when the body streamed and the checksum (if any) matches; otherwise one more retry, pending with the backoff wait while retries remain, failed without a wait after that |
| DownloadManager.Settle | src/services/download_manager.py:320-400 | the status decision after the bytes are counted: the byte fields are left alone, a cancellation is the only interruption, and completion happens exactly for a streamed file whose checksum (if any) matches |
| DownloadManager.BudgetUpdate | src/services/download_manager.py:259-296 | replacing one task changes the remaining-attempt budget by that task's terms only |
| DownloadManager.BudgetShrinks | src/services/download_manager.py:259-296 | each settled attempt on a pending task strictly lowers the budget, so the processing loop ends |
| DownloadManager.RunLoop | src/services/download_manager.py:259-296 | the processing loop keeps the queue's length; each attempt counts bytes as the code does, adding across retries (its other properties are the run lemmas below) |
| DownloadManager.GlueGlue | src/services/download_manager.py:286-292 | prepending events twice is prepending their concatenation |
| DownloadManager.RunLoopDone | src/services/download_manager.py:276-278 | with no pending task the loop stops at once, changing nothing and emitting nothing |
| DownloadManager.RunLoopStep | src/services/download_manager.py:269-292 | one step: the first pending task is marked downloading and attempted; a cancellation cancels every unfinished task and ends the run; otherwise the result goes back in place and the wait, the yield and the pause between downloads precede the rest of the run |
| DownloadManager.RequeuedRetriedFirst | src/services/download_manager.py:270-274 | a task sent back to pending is again the first pending task, so it is retried before later tasks |
| DownloadManager.FirstPendingIsFirst | src/services/download_manager.py:270-274 | the first pending task is found at its position |
| DownloadManager.RunLeavesNoPending | src/services/download_manager.py:259-296 | after a run no task is pending |
| DownloadManager.IdentityKeptTrans | src/services/download_manager.py:259-296 | keeping task identity composes over runs |
| DownloadManager.RunKeepsIdentity | src/services/download_manager.py:259-296 | a run changes no task's id, game, disc, destination or checksum, and keeps the queue order |
| DownloadManager.RunKeepsSettled | src/services/download_manager.py:259-296 | a run leaves tasks that were not pending alone, unless it is cancelled, which cancels them as `cancel_downloads` does |
| DownloadManager.SettledKeptStep | src/services/download_manager.py:259-296 | the one-step form of the previous row |
| DownloadManager.YieldsSettledConcat | src/services/download_manager.py:286-287 | the yielded-tasks property is kept by concatenation |
| DownloadManager.StepYieldsSettled | src/services/download_manager.py:286-287 | a settled step yields a completed, failed or pending task |
| DownloadManager.RunYieldsSettled | src/services/download_manager.py:286-287 | every task a run yields is completed, failed or pending (never downloading or cancelled) |
| DownloadManager.RunKeepsChecksums | src/services/download_manager.py:1040-1060 | if only completed tasks carry a checksum before a run, the same holds after it |
| DownloadManager.ChecksumNeverFailsARun | src/services/download_manager.py:321-324 | under that invariant the checksum step of an attempt always passes |
| DownloadManager.GamePairs | src/services/download_manager.py:190-206 | one (game, disc) pair per disc of the game, in order |
| DownloadManager.DiscPairs | src/services/download_manager.py:190-206 | one pair per disc over all games |
| DownloadManager.BatchTasks | src/services/download_manager.py:190-206 | one task per pair |
| DownloadManager.BatchTasksConcat | src/services/download_manager.py:190-206 | the batch of two lists is the batch of the first followed by the batch of the second |
| DownloadManager.BatchTasksAt | src/services/download_manager.py:190-206 | the k-th task of a batch is made from the k-th pair |
| DownloadManager.BatchTasksSnoc | src/services/download_manager.py:190-206 | the batch grows one task per loop step |
| DownloadManager.BatchOrder | src/services/download_manager.py:190-206 | `add_batch_to_queue` creates the k-th task for the k-th disc in game order, as `add_to_queue` would |
| DownloadManager.BatchTasksSummary | src/services/download_manager.py:190-206 | a batch's tasks are all pending, have nothing downloaded, and their totals sum to the discs' known sizes |
| DownloadManager.ResetForRetry | src/services/download_manager.py:1081-1084 | a retried task is pending with no bytes, no error and no retries; nothing else changes |
| DownloadManager.RetryRestoresBudget | src/services/download_manager.py:1081-1084 | a retried task gets its full attempt budget back and goes back to pending when it fails once more |
| DownloadManager.DownloadManagerService.constructor | src/services/download_manager.py:69-129 | the service starts with an empty queue, neither paused nor running nor cancelled |
| DownloadManager.DownloadManagerService.SetEsdeMode | src/services/download_manager.py:136-141 | only the mode changes |
| DownloadManager.DownloadManagerService.AddToQueue | src/services/download_manager.py:143-188 | the new task is appended to the queue and returned; nothing else changes |
| DownloadManager.DownloadManagerService.AddBatchToQueue | src/services/download_manager.py:190-206 | one task per disc is appended, in game order |
| DownloadManager.DownloadManagerService.FindIndex | src/services/download_manager.py:217-218 | the loop finds the first task with the id |
| DownloadManager.DownloadManagerService.RemoveFromQueue | src/services/download_manager.py:208-228 | returns whether the id was present; the first task with it is removed |
| DownloadManager.DownloadManagerService.ClearQueue | src/services/download_manager.py:230-240 | the queue is rebuilt as exactly its completed and failed tasks, all of them, in queue order; the flags are unchanged |
| DownloadManager.DownloadManagerService.RelabelQueue | src/services/download_manager.py:836-866 | the status loop relabels every task in the `from` status |
| DownloadManager.DownloadManagerService.PauseDownloads | src/services/download_manager.py:836-850 | pausing twice is harmless; the first pause turns downloading tasks into paused ones |
| DownloadManager.DownloadManagerService.ResumeDownloads | src/services/download_manager.py:852-866 | resuming when not paused does nothing; otherwise paused tasks go back to downloading |
| DownloadManager.DownloadManagerService.CancelDownloads | src/services/download_manager.py:868-878 | every unfinished task is cancelled, the cancel flag is set and the service stops running |
| DownloadManager.DownloadManagerService.GetQueueStatus | src/services/download_manager.py:888-912 | the counting loop gives the queue's status counts and byte totals |
| DownloadManager.DownloadManagerService.GetTask | src/services/download_manager.py:914-926 | the first task with the id |
| DownloadManager.DownloadManagerService.GetAllTasks | src/services/download_manager.py:928-935 | the queue itself |
| DownloadManager.DownloadManagerService.GetFailedTasks | src/services/download_manager.py:1089-1095 | the failed tasks in queue order |
| DownloadManager.DownloadManagerService.GetCompletedTasks | src/services/download_manager.py:1097-1103 | the completed tasks in queue order |
| DownloadManager.DownloadManagerService.RetryFailedDownload | src/services/download_manager.py:1062-1087 | succeeds exactly for a failed or cancelled task, which is reset for a retry; otherwise nothing changes |
| DownloadManager.DownloadManagerService.VerifyFileIntegrity | src/services/download_manager.py:1040-1060 | only a completed task gets the expected checksum stored and checked; any other id gives False and changes nothing |
| DownloadManager.DownloadManagerService.FindPending | src/services/download_manager.py:270-274 | the loop finds the first pending task |
| DownloadManager.DownloadManagerService.StartDownloads | src/services/download_manager.py:242-297 | a second start does nothing; a paused start suspends before any work; otherwise the queue, the events and the cancel flag are those of one run of the processing loop, with the code's byte accounting, and the service is no longer running afterwards |
| DownloadManager.DownloadManagerService.RunQueue | src/services/download_manager.py:259-296 | the loop body repeated until no pending task or a cancellation: the queue, events and flag of RunLoop, bytes added across retries as the code does |
| DownloadManager.DownloadManagerService.RunStep | src/services/download_manager.py:280-285 | one attempt on the first pending task, with the code's byte accounting, written back in place; a cancellation cancels every unfinished task |
| DownloadManager.IndexOfIdIsFirst | src/services/download_manager.py:217-218 | the first position with the id is found there |
| DownloadManager.NoPendingAtEnd | src/services/download_manager.py:276-278 | a queue without pending tasks has none to pick |
| DownloadManager.StatusOfSnoc | src/services/download_manager.py:897-911 | counting one more task adds its status and bytes to the counts |
| GameScraper.GameLinkShape | src/services/game_scraper.py:390-392 | a link is a game link exactly when its href is "/vault/" followed by a non-empty run of digits, and its URL is the site's vault address followed by the id |
| GameScraper.IsGameLink | src/services/game_scraper.py:390-392 | a game link is longer than "/vault/" and ends in a digit (its exact shape is GameLinkShape) |
| GameScraper.GameLinks | src/services/game_scraper.py:385-392 | the extraction pass keeps at most the links it was given |
| GameScraper.GameLinksCounted | src/services/game_scraper.py:349-392 | the extraction pass keeps exactly as many links as the counting pass counts |
| GameScraper.GameLinksAreGameUrls | src/services/game_scraper.py:390-392 | every extracted URL is a vault game URL with a digit id |
| GameScraper.DownloadBase | src/services/game_scraper.py:482-493 | a protocol-relative action gets "https:" and loses trailing '/', an "http" action loses trailing '/', anything else or no action gives "https://dl3.vimm.net" |
| GameScraper.DownloadBaseShape | src/services/game_scraper.py:482-493 | the download base always starts with "http" and never ends in '/' |
| GameScraper.DiscListFromScripts | src/services/game_scraper.py:499-518 | with script media IDs there is one disc per ID in order, labelled "Disc k" from 1, with URL base + "/?mediaId=" + id and no size |
| GameScraper.DiscListFallback | src/services/game_scraper.py:520-547 | with no script IDs a mediaId input gives exactly one "Disc 1", and no input gives no discs |
| GameScraper.DiscList | src/services/game_scraper.py:499-541 | one disc per script id, else one disc from the hidden input, else none, the hidden input's disc carrying its id |
| GameScraper.ScrapedDiscSuffixes | src/services/game_scraper.py:506 | with two or more IDs the first disc's label gets no ES-DE suffix and the second gets " (Disc 2)" |
| GameScraper.SystemTailStrip | src/services/game_scraper.py:228 | the closing `\s*\([^)]+\)$` part of the page-title pattern matches a text exactly when it matches the text without its leading blanks |
| GameScraper.LazyGroup | src/services/game_scraper.py:228 | the lazy `(.+?)` group: the shortest length from k on that the rest of the pattern accepts, or none |
| GameScraper.LeadIn | src/services/game_scraper.py:228 | the `\s*` after "The Vault:": the leftmost start the rest of the pattern accepts from a blank run, with its shortest group |
| GameScraper.BlankEnd | src/services/game_scraper.py:228 | the end of the blank run after "The Vault:" |
| GameScraper.VaultMatch | src/services/game_scraper.py:225-228 | `re.match` of the page-title pattern: no match only when the text lacks the prefix or nothing matches; otherwise the match Python's backtracking picks |
| GameScraper.VaultTitleMatch | src/services/game_scraper.py:225-231 | the page-title strategy yields a non-empty name without newlines |
| GameScraper.GroupText | src/services/game_scraper.py:228 | a matched group is non-empty and holds no newline |
| GameScraper.NoMatchPastBlank | src/services/game_scraper.py:228 | the group cannot start after the blank run |
| GameScraper.VaultTitleOf | src/services/game_scraper.py:224-231 | a page title "The Vault: X (Y)" yields exactly X for a trimmed, single-line X without '(' and a non-empty Y without ')' |
| GameScraper.NameMatches | src/services/game_scraper.py:228 | in such a title the group can start at X and nowhere later |
| GameScraper.NameIsShortest | src/services/game_scraper.py:228 | no shorter group than X matches there |
| GameScraper.ReportedMatch | src/services/game_scraper.py:228 | the leftmost start with its shortest group is the match reported |
| GameScraper.TailOfName | src/services/game_scraper.py:228 | " (Y)" is accepted by the closing part of the pattern |
| GameScraper.TailNotInsideName | src/services/game_scraper.py:228 | the closing part cannot start inside X |
| GameScraper.PageTitleName | src/services/game_scraper.py:221-231 | the page-title strategy gives a non-empty name or nothing |
| GameScraper.ExtractGameTitle | src/services/game_scraper.py:185-241 | the extracted title is never empty |
| GameScraper.FirstUsable | src/services/game_scraper.py:197-241 | the index of the first non-empty candidate |
| GameScraper.TitleStrategyOrder | src/services/game_scraper.py:197-241 | the title is the first non-empty result of canvas data, og:title, page title and h1, in that order, or none |
| GameScraper.AdmitsMonotone | src/services/game_scraper.py:421-435 | no minimum admits every game; an unrated game is always admitted; a rated one exactly when the minimum is at most its rating; raising the minimum never admits more |
| GameScraper.Admits | src/services/game_scraper.py:421-431 | a game is kept without a minimum or without a rating, and otherwise exactly when its rating reaches the minimum |
| GameScraper.GameDetails | src/services/game_scraper.py:128-183 | a failed fetch fails with its error; a page without title fails with "Game title not found on page"; otherwise the game has that title, the URL, the current category or "Unknown", the disc list, the clock value and the page's rating |
| GameScraper.GameCategory | src/services/game_scraper.py:549-552 | the category of a scraped game is never empty: the run's category, or "Unknown" |
| GameScraper.GameErrorText | src/services/game_scraper.py:448 | the per-game error text holds the link title |
| GameScraper.LetterErrorText | src/services/game_scraper.py:114 | the per-letter error text holds the letter |
| GameScraper.LinkOutcome | src/services/game_scraper.py:402-452 | each link ends processed, skipped or failed, carries its title, and a processed game passes the score filter, has a title, the category and the link's URL |
| GameScraper.LinkOutcomes | src/services/game_scraper.py:455-471 | one outcome per link, in link order |
| GameScraper.LinkOutcomesSnoc | src/services/game_scraper.py:455-471 | the outcomes grow by one per link |
| GameScraper.CategoryEventsSnoc | src/services/game_scraper.py:100-118 | the run's events grow by one letter's events per letter |
| GameScraper.ReplayConcat | src/services/game_scraper.py:100-118 | replaying two event lists is replaying them one after the other |
| GameScraper.YieldedConcat | src/services/game_scraper.py:108-110 | the yielded games of two event lists are concatenated |
| GameScraper.ReplayTally | src/services/game_scraper.py:402-452 | each outcome raises processed, skipped or the error count by exactly one, and processed grows by the yielded games |
| GameScraper.LetterSettled | src/services/game_scraper.py:108-118 | a letter whose page fails settles one error; otherwise one outcome per valid link |
| GameScraper.PageSettled | src/services/game_scraper.py:365-471 | a fetched page settles one outcome per valid link |
| GameScraper.CategorySettled | src/services/game_scraper.py:100-118 | a run settles one outcome per valid link the scraping pass found over all letters and one error per letter page that pass could not fetch |
| GameScraper.ScrapeBalance | src/services/game_scraper.py:62-126 | after a run, the total is the counting pass's; processed + skipped + errors equals the scraping pass's links plus its failing letters; processed equals the games yielded; and only when both passes saw the same pages does the sum equal the total plus the failing letters |
| GameScraper.AgreeingPassesCount | src/services/game_scraper.py:335-392 | two passes that get the same answer for every letter page count the same links |
| GameScraper.YieldedGood | src/services/game_scraper.py:108-110 | yielded games of good events are good |
| GameScraper.CategoryEventsGood | src/services/game_scraper.py:100-118 | every event of a run is good |
| GameScraper.GoodEventsConcat | src/services/game_scraper.py:100-118 | good events concatenate |
| GameScraper.LetterEventsGood | src/services/game_scraper.py:108-118 | one letter's events are good |
| GameScraper.PageEventsGood | src/services/game_scraper.py:455-471 | one page's events are good |
| GameScraper.YieldedGamesGood | src/services/game_scraper.py:402-452 | every game a run yields passes the score filter, has a non-empty title and the run's category |
| GameScraper.GameScraperService.constructor | src/services/game_scraper.py:22-60 | counters zero, no errors, no category, not cancelled |
| GameScraper.GameScraperService.GetScrapingProgress | src/services/game_scraper.py:315-328 | the counters as they stand |
| GameScraper.GameScraperService.CancelScraping | src/services/game_scraper.py:330-333 | only the cancel flag is set |
| GameScraper.GameScraperService.ScrapeGameDetails | src/services/game_scraper.py:128-183 | the result is the details of the fetched page under the current category |
| GameScraper.GameScraperService.CountTotalGames | src/services/game_scraper.py:335-363 | only the total changes: the valid links over all letters in the counting pass's own fetches, a failing letter counting 0, under the given or else the current category |
| GameScraper.GameScraperService.ScrapeSingleGame | src/services/game_scraper.py:402-452 | the counters record the link's outcome and the game is returned exactly when it was processed |
| GameScraper.GameScraperService.ScrapeLetterPage | src/services/game_scraper.py:365-475 | a failed fetch changes nothing and reports its error; otherwise every valid link is settled in order and the processed games are returned |
| GameScraper.GameScraperService.ScrapeGames | src/services/game_scraper.py:455-471 | the loop settles the links in order and returns the processed games |
| GameScraper.GameScraperService.ScrapeLetter | src/services/game_scraper.py:104-118 | one letter: its page's outcomes, or exactly one error when the page fails |
| GameScraper.GameScraperService.ScrapeCategory | src/services/game_scraper.py:62-126 | counters and errors reset, the total taken from the counting pass's fetches, then each letter's events from the scraping pass's fetches replayed in order; the yielded games are the processed ones |
| Errors.ToUserFriendly | src/services/errors.py:80-90 | the user-facing record carries the error's message, category, severity, actions, details and recoverability unchanged |
| Errors.CauseLine | src/services/errors.py:127 | the "Type: text" line of an underlying exception is never empty |
| Errors.Present | src/services/errors.py:125-131 | the present lines, at most as many as given |
| Errors.JoinNonEmpty | src/services/errors.py:125-131 | joining non-empty lines gives a non-empty text |
| Errors.PresentNonEmpty | src/services/errors.py:125-131 | the present lines of non-empty lines are non-empty |
| Errors.PrependJoin | src/services/errors.py:129-131 | prepending a line with "\n" before earlier details is joining the present lines |
| Errors.PresentEmpty | src/services/errors.py:125-131 | no line is present exactly when every line is absent |
| Errors.AppendAllShape | src/services/errors.py:230-350 | the detail builders that append "\n"-prefixed lines: no details exactly when no line is present; otherwise the first line (or "") followed by each present line after a newline |
| Errors.AppendAllAbsent | src/services/errors.py:230-350 | the absence half of the previous row |
| Errors.AppendAllText | src/services/errors.py:230-350 | the text half of the previous row |
| Errors.NetworkActions | src/services/errors.py:102-123 | a two-item list for 429, for 404 and for 500 and above; otherwise the default three |
| Errors.NetworkError | src/services/errors.py:92-144 | a network error is an ERROR-severity, recoverable Network error with the given message and no context |
| Errors.NetworkActionsByStatus | src/services/errors.py:102-123 | 429, 404 and statuses from 500 up each get their own list; any other status, or none, keeps the default three, and only the default has three items |
| Errors.NetworkDetailsLines | src/services/errors.py:125-131 | the details are the present lines "Status: n" (status non-zero), "URL: u" (URL non-empty) and the cause line, in that order, joined by newlines |
| Errors.PrependThree | src/services/errors.py:125-131 | two prepends of three lines join the present ones in order |
| Errors.FileActions | src/services/errors.py:177-214 | a permission error, a missing file, an OS error naming no space or a full disk, and a read-only one each get their own list; everything else gets the default |
| Errors.FileSystemError | src/services/errors.py:146-175 | an ERROR-severity, recoverable FileSystem error with the given message and at least two actions |
| Errors.Truncated | src/services/errors.py:234 | the value text cut to its first 100 characters |
| Errors.QuoteConstraints | src/services/errors.py:228 | one "Ensure: c" action per constraint, in order |
| Errors.ValidationError | src/services/errors.py:216-248 | a WARNING, recoverable Validation error whose actions are the review hint followed by the quoted constraints |
| Errors.ConfigurationError | src/services/errors.py:250-284 | an ERROR, recoverable Configuration error with the two fixed actions, plus a third exactly when an expected value is given and non-empty |
| Errors.ScrapingError | src/services/errors.py:286-321 | a WARNING, recoverable Scraping error with three actions |
| Errors.ScrapingDetailsShape | src/services/errors.py:302-308 | no details exactly when there is no game title, URL or cause; with a title the details start "Game: " followed by the appended lines |
| Errors.DownloadError | src/services/errors.py:323-367 | an ERROR, recoverable Download error with three actions, and no details exactly when there is no file name, URL, positive total or cause |
| Errors.HttpErrorMessage | src/services/errors.py:531-545 | the table entry for a listed status, else "HTTP error n occurred." |
| Errors.HttpMessagesTable | src/services/errors.py:533-545 | the table lists exactly the ten codes, with ten different messages, and every other code gets the generic text |
| Errors.ConvertToAppError | src/services/errors.py:430-528 | an application error passes through unchanged; a foreign one is recoverable, is classified by its kind, is a WARNING exactly for value and type errors, has actions unless unexpected, takes its message from the status table or the exception text, and an unexpected one keeps the operation context and the cause line |
| Errors.ConvertCategories | src/services/errors.py:441-528 | connection, timeout, HTTP-status and request errors are Network; permission, missing-file and OS errors are FileSystem; value and type errors are Validation; anything else is Unexpected with no actions |
| Errors.BulletLines | src/services/errors.py:666-667 | one "  • action" line per action, in order |
| Errors.JoinAsLines | src/services/errors.py:669 | joining the message and the lines with newlines is the message followed by each line after a newline |
| Errors.LinesOfBullets | src/services/errors.py:664-669 | the bullet text is the bullet lines, each after a newline |
| Errors.CreateUserMessage | src/services/errors.py:648-669 | the message alone unless suggestions are asked for and present; then the "Suggested actions:" header after an empty line and at most the first three actions as bullets |
| Errors.Recorded | src/services/errors.py:424-426 | the history keeps its newest entry last and drops the oldest once it would exceed 100, so it never holds more than 100 |
| Errors.SliceStart | src/services/errors.py:634 | Python's start index of `[-count:]`, clamped to the history |
| Errors.RecentErrors | src/services/errors.py:625-635 | never more errors than the history holds |
| Errors.RecentErrorsWindow | src/services/errors.py:634-635 | a positive count gives the last min(count, size) errors oldest first; a count of 0 gives the whole history |
| Errors.CountsSumToLength | src/services/errors.py:643-646 | the per-category counts sum to the history's length |
| Errors.CategoryCount | src/services/errors.py:637-646 | a category's count is at most the history length and is zero exactly when no recorded error has that category |
| Errors.ErrorHandlingService.constructor | src/services/errors.py:390-395 | empty history and no recovery states |
| Errors.ErrorHandlingService.HandleError | src/services/errors.py:397-428 | the converted error is recorded in the bounded history and returned in its user-facing form; the recovery states are unchanged |
| Errors.ErrorHandlingService.SaveRecoveryState | src/services/errors.py:569-597 | the key is overwritten with a fresh, unattempted state |
| Errors.ErrorHandlingService.GetRecoveryState | src/services/errors.py:599-608 | the stored state for a saved key, else None |
| Errors.ErrorHandlingService.ClearRecoveryState | src/services/errors.py:610-623 | True and the key removed exactly when it was present |
| Errors.ErrorHandlingService.GetRecentErrors | src/services/errors.py:625-635 | the recent-errors window of the current history |
| Errors.ErrorHandlingService.GetErrorCountByCategory | src/services/errors.py:637-646 | a category is listed exactly when it occurs, with its count, and the counts sum to the history length |
| Numbers.SplitSign | src/ui/screens/settings.py:324-345 | a leading '+' or '-' is taken off and a '-' makes the number negative; any other text is unsigned |
| Numbers.ParseInt | src/ui/screens/settings.py:325 | `int(s)` succeeds exactly when the stripped text is an optional sign and digits |
| Numbers.ParseFloat | src/ui/screens/settings.py:339 | `float(s)` succeeds exactly when the stripped text is an optional sign and decimal digits with at most one point |
| Numbers.IntOfText | src/ui/screens/settings.py:325 | `int` accepts exactly an optional sign followed by one or more ASCII digits, with the signed decimal value |
| Numbers.DotIndex | src/ui/screens/settings.py:339 | the position of the first '.', or the length when there is none |
| Numbers.RealOfText | src/ui/screens/settings.py:339 | `float` accepts exactly an optional sign and digits with at most one '.', with at least one digit |
| Numbers.DigitsOfNat | src/ui/screens/settings.py:325 | the decimal text of a natural number is digits with that value |
| Numbers.ParseIntOfString | src/ui/screens/settings.py:325 | `int(str(i)) == i` for every integer |
| Numbers.StripIntString | src/ui/screens/settings.py:325 | the text of an integer has no surrounding whitespace |
| Numbers.IntOfTextOfString | src/ui/screens/settings.py:325 | the unstripped half of the round trip |
| Numbers.ParseIntIsFloat | src/ui/screens/settings.py:324-345 | every text `int` accepts, `float` accepts with the same value |
| Numbers.IntTextIsReal | src/ui/screens/settings.py:324-345 | the unstripped half of the previous row |
| Numbers.ParseIgnoresSpace | src/ui/screens/settings.py:324-345 | surrounding blanks change neither parse |
| Numbers.StripPadded | src/ui/screens/settings.py:324-345 | stripping ignores one blank on each side |
| Numbers.LStripPadded | src/ui/screens/settings.py:324-345 | stripping the front of a text with a trailing blank keeps that blank unless the text is blank |
| Numbers.RStripSpace | src/ui/screens/settings.py:324-345 | stripping the end ignores a trailing blank |
| Config.LettersCheck | src/services/config.py:78-82 | the letters rule reports only letter issues |
| Config.DirectoryCheck | src/services/config.py:85-88 | the directory rule reports only directory issues |
| Config.DownloadsCheck | src/services/config.py:91-94 | the concurrent-downloads rule reports only its own issues |
| Config.DelayCheck | src/services/config.py:97-100 | the request-delay rule reports only its own issues |
| Config.LogLevelCheck | src/services/config.py:102-105 | the log-level rule reports only its own issue |
| Config.ScoreCheck | src/services/config.py:108-112 | the minimum-score rule reports only its own issues |
| Config.ScrapesCheck | src/services/config.py:115-118 | the concurrent-scrapes rule reports only its own issues |
| Config.Opt | src/services/config.py:73-120 | an absent issue contributes no message, a present one exactly one |
| Config.ConfigErrors | src/services/config.py:73-120 | one message per issue found, in rule order |
| Config.Issues | src/services/config.py:73-120 | at most one issue per checked field, seven in all |
| Config.ValidIffRulesHold | src/services/config.py:73-120 | no errors exactly when every rule holds: one to many single ASCII letters, an absolute directory, 1..10 downloads, delay 0..60, a listed log level, no score or one in 0..100, and 1..10 scrapes |
| Config.ValidateConfig | src/services/config.py:73-120 | valid exactly when the error list is empty, which is exactly when every rule holds |
| Config.OneErrorPerField | src/services/config.py:73-120 | at most seven errors, at most one per field, in field order |
| Config.IssuesIncreasing | src/services/config.py:73-120 | the issues are in strictly increasing field order |
| Config.SevenIncreasing | src/services/config.py:73-120 | seven optional issues, one per field, concatenate in field order |
| Config.ExtendTwo | src/services/config.py:73-120 | appending the issues of the next two fields keeps the order |
| Config.Extend | src/services/config.py:73-120 | appending at most one issue of the next field keeps the order |
| Config.Raise | src/services/config.py:73-120 | the order bound can be raised |
| Config.IncreasingSorted | src/services/config.py:73-120 | an ordered issue list is strictly sorted by field and below its bound |
| Config.EmptyLettersRejected | src/services/config.py:78-79 | no letters gives "target_letters cannot be empty" first |
| Config.NonLetterRejected | src/services/config.py:80-82 | any entry that is not one letter gives the single-letters error first |
| Config.DefaultIsValid | src/services/config.py:122-132 | the defaults pass validation for an absolute home directory |
| Config.DefaultConfig | src/services/config.py:122-132 | the defaults hold a letter and no minimum score, and the download directory is absolute and well formed under an absolute, well-formed home |
| Config.ConfigToDict | src/services/config.py:134-145 | the dictionary holds every key the loader requires |
| Config.Trunc | src/services/config.py:160-170 | Python's `int` of a float truncates toward zero |
| Config.PyStr | src/services/config.py:168 | `str` of a string is the string itself, and of any other JSON value a non-empty text not starting with '/' |
| Config.LettersOf | src/services/config.py:167 | a list keeps one entry per item, anything else gives no letters |
| Config.DictToConfig | src/services/config.py:147-175 | a KeyError names a missing required key and only a complete object converts; on an object whose values are all in range it builds exactly when the required keys are present; OverflowError arises only from an infinity or an int past the double range; a built directory is well formed |
| Config.DictRoundTrip | src/services/config.py:134-175 | reading back the dictionary of a configuration gives the same configuration |
| Config.LoadConfigAsWritten | src/services/config.py:29-51 | as written, loading escapes with an exception exactly when the file cannot be opened (its OSError), decodes to JSON that is not an object, or holds an object whose conversion raises OverflowError; otherwise the defaults or a valid stored configuration |
| Config.InfiniteScrapesEscape | src/services/config.py:159-160 | an object whose `concurrent_scrapes` is an infinity makes loading raise OverflowError, whatever else it holds |
| Config.HugeScoreEscapes | src/services/config.py:150-156 | an object whose `minimum_score` is an int past the double range makes loading raise OverflowError, whatever else it holds |
| Config.LoadNonObjectEscapes | src/services/config.py:37-39 | a file holding `[]` makes the loader raise instead of falling back to the defaults |
| Config.LoadConfig | src/services/config.py:29-51 | corrected loading: an unopenable file still raises its OSError; otherwise the defaults, or the file's object when it decodes to a valid configuration; a missing or undecodable file gives the defaults |
| Config.LoadConfigAgrees | src/services/config.py:29-51 | corrected and as-written loading agree, the OSError included, exactly on the files whose exception does not escape the handler at 49 |
| Config.LoadedIsValid | src/services/config.py:29-51 | loading fails only for a file that cannot be opened, and whatever a readable file holds, the loaded configuration passes validation |
| Config.SaveConfig | src/services/config.py:53-71 | saves the dictionary exactly when the configuration is valid; otherwise fails with "Invalid configuration: " and the errors joined by ", " |
| Config.SaveThenLoad | src/services/config.py:29-71 | loading what was saved gives back the same configuration |
| SettingsForm.ReadForm | src/ui/screens/settings.py:282-292 | the form's texts are read as they stand, and an empty or missing log-level choice reads as "INFO" |
| SettingsForm.CleanPieces | src/ui/screens/settings.py:304 | the comprehension keeps at most one letter per comma-separated piece |
| SettingsForm.CleanedPieces | src/ui/screens/settings.py:304 | every kept piece is non-empty and has no lower-case letter |
| SettingsForm.AllCleanConcat | src/ui/screens/settings.py:304 | clean lists concatenate to a clean list |
| SettingsForm.CleanConcat | src/ui/screens/settings.py:304 | the comprehension distributes over concatenation |
| SettingsForm.CleanSameStrip | src/ui/screens/settings.py:304 | pieces with the same stripped text give the same letters |
| SettingsForm.FormLettersOfStripped | src/ui/screens/settings.py:300-304 | splitting the stripped text gives the same letters as splitting the raw text, so validation and building agree |
| SettingsForm.NoComma | src/ui/screens/settings.py:300-304 | blanks hold no comma |
| SettingsForm.TrailingSpaceLetters | src/ui/screens/settings.py:300-304 | trailing blanks do not change the letters |
| SettingsForm.InitLast | src/ui/screens/settings.py:385 | a non-empty list is its front followed by its last item |
| SettingsForm.LastSameStrip | src/ui/screens/settings.py:385 | trailing blanks do not change a stripped piece |
| SettingsForm.CleanLastSameStrip | src/ui/screens/settings.py:385 | a last piece with the same stripped text gives the same letters |
| SettingsForm.LeadingSpaceLetters | src/ui/screens/settings.py:300-304 | leading blanks do not change the letters |
| SettingsForm.LettersError | src/ui/screens/settings.py:299-308 | no letters error exactly when the stripped text splits into at least one letter and each is a single alphabetic character; a blank text, a text of only commas and blanks, and an entry that is not one letter each get their own message |
| SettingsForm.DirectoryError | src/ui/screens/settings.py:310-317 | no directory error exactly when the stripped text starts with '/'; a blank text and a relative path each get their own message |
| SettingsForm.ConcurrentError | src/ui/screens/settings.py:319-331 | no concurrency error exactly when the text is an integer from 1 to 10; a blank text, a non-integer, a value below 1 and one above 10 each get their own message |
| SettingsForm.DelayError | src/ui/screens/settings.py:333-345 | no delay error exactly when the text is a number from 0 to 60; a blank text, a non-number, a negative value and one above 60 each get their own message |
| SettingsForm.LogLevelError | src/ui/screens/settings.py:347-351 | no log-level error exactly when the level is one of the five names |
| SettingsForm.KeyOf | src/ui/screens/settings.py:302-351 | each form field's error is stored under the configuration key of the same name |
| SettingsForm.Put | src/ui/screens/settings.py:302-351 | storing an error adds exactly that key with that message and keeps the others |
| SettingsForm.FormErrorsByField | src/ui/screens/settings.py:294-354 | a field is in the error dictionary exactly when its own rule fails, with that rule's message |
| SettingsForm.FormErrors | src/ui/screens/settings.py:294-354 | the error dictionary of `_validate_form` has a key exactly for each field whose own rule fails |
| SettingsForm.ErrorsOfByField | src/ui/screens/settings.py:294-354 | the generic form of the previous row, for any five optional messages |
| SettingsForm.FormValidIff | src/ui/screens/settings.py:354 | the form is valid (no errors) exactly when all five rules hold |
| SettingsForm.BuildConfigAsWritten | src/ui/screens/settings.py:376-393 | as written, a configuration is built exactly when the form is valid, from the unstripped directory text |
| SettingsForm.LeadingSpaceDirectoryRejected | src/ui/screens/settings.py:389 | a directory typed as " /games" passes the form but gives a relative path that configuration validation rejects |
| SettingsForm.BuildConfigFromForm | src/ui/screens/settings.py:376-393 | corrected building: a configuration exactly when the form is valid, with the stripped directory |
| SettingsForm.BuildersAgreeOnStripped | src/ui/screens/settings.py:376-393 | the code's and the corrected builder succeed on the same forms, differ only in the directory, and agree when the directory text has no surrounding whitespace |
| SettingsForm.BuiltConfigIsValid | src/ui/screens/settings.py:376-393 | every configuration built from a valid form passes configuration validation |
| SettingsForm.BuiltConfigFields | src/ui/screens/settings.py:384-392 | the built configuration holds the form's letters, each non-empty and upper-case, and the parsed numbers of the form's texts |
| SettingsForm.SettingsScreen.constructor | src/ui/screens/settings.py:129-134 | the screen starts with no validation errors |
| SettingsForm.SettingsScreen.ValidateForm | src/ui/screens/settings.py:294-354 | the stored and returned errors are the form's errors, and the form is valid exactly when all rules hold |
| SettingsForm.SettingsScreen.BuildConfig | src/ui/screens/settings.py:376-393 | validates (storing the errors) and builds the configuration exactly when the form is valid, from the unstripped directory text as the code does |
| ScrapingScreen.Alphabet | src/ui/screens/scraping.py:310 | the 26 upper-case letters A to Z in order |
| ScrapingScreen.TargetLetters | src/ui/screens/scraping.py:303-315 | `_get_target_letters` returns single letters only, and all 26 for a blank input |
| ScrapingScreen.BlankIsAlphabet | src/ui/screens/scraping.py:306-310 | a blank letters field means all 26 letters |
| ScrapingScreen.TargetLettersFiltered | src/ui/screens/scraping.py:312-315 | a non-blank field gives its comma-separated pieces, stripped and upper-cased, that are single letters |
| ScrapingScreen.TargetLettersAreLetters | src/ui/screens/scraping.py:303-315 | every target letter is one upper-case alphabetic character |
| ScrapingScreen.AcceptedLettersKept | src/ui/screens/scraping.py:303-315 | text the settings form accepts gives exactly the letters the form would save |
| ScrapingScreen.PopulateThenRead | src/ui/screens/scraping.py:298-315 | writing single upper-case letters with ", " and reading the field back gives the same letters |
| ScrapingScreen.JoinedLetters | src/ui/screens/scraping.py:298-315 | splitting the joined letters gives them back |
| ScrapingScreen.SplitAfterComma | src/ui/screens/scraping.py:313 | splitting "l, j" gives l and then the pieces of j, the first with a leading blank |
| ScrapingScreen.CleanSpacedHead | src/ui/screens/scraping.py:313 | a leading blank on the first piece does not change the letters |
| ScrapingScreen.LetterPiece | src/ui/screens/scraping.py:313 | a single upper-case letter has no comma, is unchanged by strip and upper, and is kept as it is |
| ScrapingScreen.SpacedPiece | src/ui/screens/scraping.py:313 | stripping ignores a leading blank |
| ScrapingScreen.Category | src/ui/screens/scraping.py:317-320 | the category is never empty: the stripped text, or "Xbox" |
| ScrapingScreen.CategoryIdempotent | src/ui/screens/scraping.py:317-320 | the category is already stripped and reading it back gives it again |
| ScrapingScreen.StartScraping | src/ui/screens/scraping.py:333-344 | a run starts only with letters; it is refused for no letters exactly when none is running and the field gives no letters |
| ScrapingScreen.Notice | src/ui/screens/scraping.py:335-344 | a notice is shown exactly when the run does not start |
| ScrapingScreen.BlankLettersStart | src/ui/screens/scraping.py:303-344 | with none running, a blank field starts a run over all 26 letters |
| ScrapingScreen.StartedRun | src/ui/screens/scraping.py:333-344 | a run starts exactly when none is running and there are letters, with those letters and the category |
| ScrapingScreen.Recent | src/ui/screens/scraping.py:541 | the last five errors, or all when fewer |
| ScrapingScreen.ErrorText | src/ui/screens/scraping.py:538-548 | the panel text is empty exactly when there are no errors |
| ScrapingScreen.ErrorLines | src/ui/screens/scraping.py:541-544 | one bullet per recent error in order, plus a last "... and n more errors" line when there are more than five |
| ScrapingScreen.ErrorTextLines | src/ui/screens/scraping.py:542-544 | the panel text is those lines joined by newlines |
| ScrapingScreen.SplitErrorText | src/ui/screens/scraping.py:542-544 | for single-line errors, splitting the panel text at newlines gives back those lines |
| ScrapingScreen.BulletLine | src/ui/screens/scraping.py:542 | a bullet of a single-line error is one line |
| ScrapingScreen.MoreLineLine | src/ui/screens/scraping.py:544 | the overflow line is one line |
| DataView.FilterKeepsOrder | src/ui/screens/data_view.py:19-50 | the filtered games are a subsequence of the input, in the input's order |
| DataView.FilterGames | src/ui/screens/data_view.py:19-50 | `filter_games` keeps some of the input's games and no others, and a blank query with no category filter keeps them all |
| DataView.SubsequenceOfSelf | src/ui/screens/data_view.py:39 | every list is a subsequence of itself |
| DataView.SubsequenceTrans | src/ui/screens/data_view.py:42-48 | two filters in a row keep a subsequence |
| DataView.FilterKeepsIff | src/ui/screens/data_view.py:39-50 | a game is in the result exactly when it is in the input, its lower-cased title contains the lower-cased, stripped query (when a query is given), and its category equals the filter (when one other than "" and "All" is given) |
| DataView.ResultsMatch | src/ui/screens/data_view.py:42-48 | every result meets both criteria |
| DataView.BlankSearchKeepsAll | src/ui/screens/data_view.py:42-48 | a blank query and no active category keep every game in order |
| DataView.FiltersCommute | src/ui/screens/data_view.py:42-48 | filtering by category first and then by title gives the same result |
| DataView.FilterIdempotentSearch | src/ui/screens/data_view.py:19-50 | filtering the result again changes nothing |
| DataView.Scale | src/ui/screens/data_view.py:88-98 | " GB" from 1 GiB, " MB" from 1 MiB, " KB" from 1 KiB, each with the size divided by that unit, a number of at least 1 and below 1024 up to the GiB range; smaller sizes as the byte count with " B" |
| DataView.FormatFileSize | src/ui/screens/data_view.py:88-98 | no size is shown as "Unknown"; a size is shown in GB, MB or KB by its range with one decimal, and below 1 KiB as the integer with " B" |
| DataView.SizeText | src/ui/screens/data_view.py:70 | a missing or zero size is shown as "Unknown" |
| DataView.DetailOf | src/ui/screens/data_view.py:71-76 | a disc's detail keeps its number, media id and URL |
| DataView.DiscDetails | src/ui/screens/data_view.py:68-76 | the loop gives one detail per disc, in order |
| DataView.GameDisplayInfo | src/ui/screens/data_view.py:53-85 | the display record keeps the title, category and URL, its disc count is the decimal text of the number of discs (and parses back to it), and its details are one per disc in order |
| App.NewAppState | src/ui/app.py:23-30 | the empty state: no games, not scraping, an empty queue, no configuration |
| App.Pushed | src/ui/app.py:157-172 | a registered screen is appended to the stack; an unknown one leaves it unchanged |
| App.Popped | src/ui/app.py:174-184 | going back drops the top screen only when there are at least two |
| App.BackKeepsRoot | src/ui/app.py:174-184 | going back never empties the stack or changes its root, and shrinks it by one unless only the root is left |
| App.PushThenBack | src/ui/app.py:157-184 | pushing a registered screen and going back restores the stack; pushing an unknown one and going back is just going back |
| App.NavigationKeepsRegistered | src/ui/app.py:157-184 | pushing and going back keep every screen on the stack a registered one |
| App.GameScraperApp.constructor | src/ui/app.py:85-94 | a new application has an empty navigation stack and the empty state |
| App.GameScraperApp.NavigationStack | src/ui/app.py:130-133 | the reported stack is the stack itself |
| App.GameScraperApp.PushScreen | src/ui/app.py:157-172 | the stack becomes the pushed stack and the state is unchanged |
| App.GameScraperApp.GoBack | src/ui/app.py:174-184 | the stack becomes the popped stack, and the popped screen, the old top, is reported exactly when there were at least two |
| App.GameScraperApp.OnMount | src/ui/app.py:141-155 | a loaded configuration replaces the state by a fresh one holding it, a failed load keeps the state, and the main menu is pushed |
| App.GameScraperApp.UpdateGamesData | src/ui/app.py:192-205 | only the games change |
| App.GameScraperApp.SetScrapingActive | src/ui/app.py:207-220 | only the scraping flag changes |
| App.GameScraperApp.UpdateDownloadQueue | src/ui/app.py:222-235 | only the download queue changes |
| App.MountFresh | src/ui/app.py:141-155 | a fresh application, once mounted, shows the main menu alone (when it is registered) and holds the loaded configuration and nothing else |
| Models.TotalDiscs | src/services/download_manager.py:200-201 | no games have no discs, and one game has its own discs |
| Models.TotalDiscsConcat | src/services/download_manager.py:200-201 | the disc count of two game lists is the sum of their counts |
| Common.Lower | src/ui/screens/data_view.py:43-44 | `str.lower` over ASCII: same length, each upper-case letter lowered |
| Common.Upper | src/ui/screens/settings.py:304 | `str.upper` over ASCII: same length, each lower-case letter raised |
| Common.ContainsFrom | src/ui/screens/data_view.py:44 | the substring test: true exactly when the text occurs at some position |
| Common.Strip | src/ui/screens/settings.py:300 | `str.strip`: no whitespace at either end, and empty exactly when the text is all whitespace |
| Common.StripIdempotent | src/ui/screens/settings.py:300-304 | stripping twice is stripping once |
| Common.StripSpaceAround | src/ui/screens/settings.py:300-304 | whitespace around a text does not change it once stripped |
| Common.Split | src/ui/screens/settings.py:304 | `str.split(sep)`: at least one piece, none holding the separator |
| Common.SplitJoin | src/ui/screens/scraping.py:298-315 | splitting a join of separator-free pieces gives the pieces back |
| Common.JoinSnoc | src/ui/screens/scraping.py:542-544 | joining one more piece appends the separator and the piece |
| Common.Filter | src/ui/screens/data_view.py:42-48 | a list comprehension with a condition keeps only items of the input that pass |
| Common.FilterMember | src/ui/screens/data_view.py:42-48 | an item is kept exactly when it is in the input and passes |
| Common.FilterCommute | src/ui/screens/data_view.py:42-48 | two such comprehensions commute |
| Common.FilterIdempotent | src/ui/screens/data_view.py:42-48 | applying one twice is applying it once |
| Common.NatToString | src/ui/screens/data_view.py:82 | `str` of a natural number is digits |
| Common.IntToString | src/ui/screens/data_view.py:82 | `str` of an integer is non-empty, digits when non-negative, and starts with '-' otherwise |
| Paths.Parse | src/ui/screens/settings.py:315-316 | `Path(s)` is well formed and absolute exactly when the text starts with '/' |
| Paths.ParseToString | src/services/config.py:138-168 | `Path(str(p)) == p` for every well-formed path |
| Paths.ParentOfJoin | src/services/esde_compat.py:250-252 | joining a segment and taking the parent gives the path back, and the name is the segment |
| Paths.JoinSegment | src/services/esde_compat.py:250-252 | joining a plain segment appends it to the parts |
| Paths.SuffixOfName | src/services/esde_compat.py:246-248 | a name's suffix is empty or a '.'-text the name ends with |
| Paths.LastDot | src/services/esde_compat.py:246-248 | the last '.' in a name, or -1 |

## Left out

- Concurrency. `asyncio` tasks, events, sleeps, the scraper's semaphore and `as_completed` are modelled sequentially. Every wait the download loop performs is returned as an event instead of being slept. Games are scraped one after another in link order, whereas the source yields them in completion order.
- DownloadManager.DownloadManagerService.StartDownloads: a pause or cancel that arrives while a run is in progress is not modelled, because in the sequential model no other call can happen during a run. A cancellation noticed while streaming is an outcome of the oracle. A pause at the start is modelled as a suspended run.
- GameScraper.GameScraperService.ScrapeCategory: cancellation during a run is not modelled, for the same reason. The run starts with the cancel flag cleared, as the source does, and visits every letter.
- HTTP streaming (`src/services/download_manager.py:688-808`) is left out because it is I/O. Its result is the oracle's outcome: the length header (0 when missing), the bytes streamed and the file left behind, the exception text, or a cancellation.
- DownloadManager.Attempt: keeps the task's destination. The rewrite of the destination from the Content-Disposition or content-type header (`src/services/download_manager.py:735-781`) is left out.
- Archive extraction with `zipfile`, `py7zr`, `shutil` and temporary directories, and the deletion of files, are left out. Only the per-member renaming plan (`ZipPlan`, `SevenZipPlan`) is modelled.
- Download speed, ETA and the progress percentage (`_update_progress`, `get_download_progress`) are left out because they are floating-point wall-clock arithmetic. So are the `is_paused` and `is_running` properties, which only read a field.
- The task id comes from `uuid`. Here it is a caller-supplied token, and the ids are assumed distinct where that matters.
- The clocks `time.time()` and `datetime.now()` are a `now` parameter. `scraped_at.isoformat()` in the display record is left out.
- HTML parsing, base64 decoding of the canvas title, and the rating's regular expressions (`src/services/game_scraper.py:243-313`) are left out because they are foreign libraries. A detail page is the record of values they produce, with the rating already on the 0-100 scale.
- SHA-256 is an uninterpreted function from bytes to a hex string.
- `{:.1f}` formatting of file sizes and of the download percentage is a parameter, a function from reals to text.
- DataView.GameDisplayInfo: the `str()` of the list of disc dictionaries is left out. The record holds the list of disc details itself.
- SettingsForm.LogLevelError: the message joins a Python set, whose order is not fixed. The model lists the names from DEBUG to CRITICAL. `Config.Message` does the same for `validate_config`.
- SettingsForm.FormErrors: the error dictionary is keyed by a field enumeration. `KeyOf` gives the dictionary key of each field.
- Config: the type-check errors "download_directory must be a Path object" and "minimum_score must be a number or None" are unreachable in a typed record and are not modelled.
- Config.DictToConfig: stored JSON values are a small JSON datatype. The JSON text, its encoding and `OSError` on writing are left out. The configuration path is not modelled. A finite float is its exact value, and a `JFloat` past the double range stands for a value `json.load` never returns, since it reads such a literal as an infinity.
- Config.LoadConfigAsWritten: a `request_delay` or `minimum_score` read as NaN passes `validate_config` in the code (`src/services/config.py:97-100`, `108-112`), because every comparison with NaN is false, and the code returns a configuration holding NaN. The configuration's reals cannot hold NaN, so the model gives the defaults for it, as it does, like the code, for an infinity there.
- Config.PyStr: `str()` of a non-string JSON value is only constrained, not spelled out.
- Config.LettersOf: the entries of a stored letter list are kept as text, so non-string JSON items are not distinguished.
- Numbers.ParseInt / Numbers.ParseFloat / Numbers.IntOfText: `int()` and `float()` accept only the decimal forms. Underscores, exponents, "inf" and "nan" are left out, and so `float()` of text never yields NaN or infinity here.
- Character classes, `lower()`, `upper()` and `\s` are ASCII only.
- Paths.Parse: POSIX pathlib keeps exactly two leading slashes, so `str(PurePosixPath("//games"))` is "//games". The model folds any run of leading slashes into one root.
- Numbers.RealOfText: `float()` gives the exact decimal value as a real, not the nearest binary64 double. Text that rounds onto a bound is therefore judged differently: Python reads "60.00000000000000001" as 60.0 and accepts it as a delay, while SettingsForm.DelayError rejects it. A stored `request_delay` carries the same difference.
- Errors.ConvertToAppError: the JSON branch of `_convert_to_app_error` (`src/services/errors.py:508-513`) is not modelled because it is unreachable. A `json.JSONDecodeError` is a `ValueError` and is caught by the branch at 496 first, and inside the method `'json' in dir()` is false, so the test is against `type(None)`.
- App.GameScraperApp: Textual's own screen stack, `compose`, notifications and the help action are left out. Which screen names `get_screen_by_name` knows is the `registered` set. `navigation_stack` returns a copy in the source; sequences are values here, so no caller can change the stack through it.
- Logging (`structlog`, `_log_error`), the module-level error-service singleton and `handle_error` wrapper (`src/services/errors.py:676-705`), the HTTP client, the file-system service and the entry point are left out. They are logging, transport and process setup.
- The dead `elif actual_archive_type:` branch of `_download_task` (`src/services/download_manager.py:334-339`) is not modelled, because archive detection only returns "zip", "7z" or nothing.
- EsdeCompat.MappingWellFormed: the table's keys are not proved distinct, because the proof is too costly. A lookup returns the first row with the key, which is what the dictionary gives when keys are distinct.

## Findings

| source | as written | input that shows it | evidently intended | confidence | as-written member | corrected member |
|---|---|---|---|---|---|---|
| src/services/download_manager.py:794 | each attempt adds its streamed bytes to `bytes_downloaded`, while the file is rewritten from the start (`"wb"`) and `total_bytes` is reset from the length header (734) | a first attempt fails after 100 bytes; the retry streams the whole 1000-byte body, and the task reports 1100 of 1000 bytes | `bytes_downloaded` restarts at 0 with each attempt, so a completed download never reports more than its length | not executed | DownloadManager.BytesOverrunAsWritten | DownloadManager.AccountWithinLength |
| src/ui/screens/settings.py:389 | the directory is built from the unstripped text, while validation (311-317) checks the stripped text | the directory " /games" passes the form, but gives a relative path that `validate_config` rejects | the stripped directory text is used, so every configuration built from a valid form is valid | not executed | SettingsForm.LeadingSpaceDirectoryRejected | SettingsForm.BuiltConfigIsValid |
| src/services/config.py:37-39 | decoded JSON is used as a dictionary without checking that it is one; `[]` reaches `.get` and raises AttributeError, which the handler at 49 does not catch | a configuration file holding `[]` | any file that does not hold a valid configuration falls back to the defaults | not executed | Config.LoadNonObjectEscapes | Config.LoadedIsValid |
| src/services/config.py:160 | `int()` of an infinite `concurrent_scrapes` raises OverflowError, and `float()` of an int past the double range does as well (154, 170); the handler at 49 catches neither | a configuration file whose `concurrent_scrapes` is `1e400` | any file that does not hold a valid configuration falls back to the defaults | not executed | Config.InfiniteScrapesEscape | Config.LoadedIsValid |

The download engine and the settings screen run the code as written
(`AccountAsWritten`, `BuildConfigAsWritten`). The corrected definitions stand
beside them with their properties proved, and `AccountFromZero` and
`BuildersAgreeOnStripped` state where the two agree.
