# Scriberr Companion core, modelled in Dafny

Scriberr Companion is a desktop app. It records meeting audio (a meeting client's system audio, optionally mixed with a microphone) into WAV files. It keeps a local ledger of recordings and uploads them to a Scriberr transcription server. It then polls the server until each job is transcribed, and serves the remote audio back to its own web view through a small local HTTP proxy.

This project models the core of that app and proves properties of the model:

- **The recording ledger** (`Db`).
  - The `cached_recordings` table is a map keyed by `local_id`.
  - The two-way codec between sync-status names and `SyncStatus`.
  - Every `DatabaseService` operation, as a method of class `Db.Database`. Each method is specified by a pure function on the table.
  - The listing `ORDER BY created_at DESC`, with SQLite's byte-wise text order.
  - The insert-or-refresh `upsert_remote_recording`, including how it reads JSON-looking transcripts.
- **Storage** (`Storage`).
  - The settings file, with its defaults.
  - The JSON ledger file, written to `ledger.json.tmp` and then renamed over `ledger.json`.
  - The ledger rewrite of `migrate_recordings`.
  - The file system is the class `Files.FileStore`, a map from path to content.
  - Rust's `Path::join`, `Path::components`, `starts_with` and `strip_prefix` are modelled in `Paths`.
- **Sync** (`Sync`).
  - `upload_recording`, with its checks in order, its status changes and the pruning of the local file.
  - One `poll` pass over the jobs in `PROCESSING_REMOTE`, with the `recording-updated` events it emits.
  - Both are pure functions, `Sync.Upload` and `Sync.Polled`. The methods of `Sync.SyncService` run them against a `Database` and a `FileStore`.
- **Proxy** (`Proxy`): `proxy_handler` of the local `/stream/:job_id` endpoint. This covers the upstream URL and headers, the mapping of failure statuses, and the headers passed back.
- **Discovery** (`Discovery`): the filter that picks meeting clients (Zoom, Slack, Teams) out of the running applications.
- **Recorder** (`Recorder`).
  - What `start_recording`, `stop_recording` and the pause calls leave in the `AudioRecorder` fields, and the order in which a start can fail.
  - How the system-audio callback turns a captured buffer into the interleaved stereo samples it offers to the mixer.
- **Commands** (`App`): the Tauri commands over `AppState`. These are `toggle_recording` and the start/stop/pause/resume/delete commands.
- **Errors** (`Errors`): `AppError`, its display text and its `From` conversions.

The outside world enters as parameters:

- HTTP exchanges are functions from the request sent to the reply received: `send` and `fetch`.
- JSON encoding and decoding are functions `encode` and `decode` (`parse` for transcript JSON).
- `HOME` is an `Option<string>`. Generated UUIDs and clock readings are `freshId`, `now` and `timestamp`.
- What the audio platform does during a start or stop is a `Recorder.StartEnvironment`, or a finalisation error.

Where the code and its design description disagree, the model follows the code:

- `finalize_upload` moves a row straight to `PROCESSING_REMOTE`. It does not go to `REMOTE_PENDING`: neither the upload nor the poll sets `REMOTE_PENDING` (`Sync.UploadSkipsRemotePending`, `Sync.Visit`). Only `upsert_remote_recording` stores it, for the server's `uploaded` and `pending` (`Db.RemoteWordMeaning`).
- A 2xx upload reply without a string `"id"` leaves the row in `UPLOADING`. It is not marked `FAILED`.
- The poll stores the audio URL as `…/api/v1/transcription/jobs/{id}/audio`. The proxy fetches `…/api/v1/transcription/{id}/audio`. Both are modelled as written.
- `db.rs` constructs `AppError::Database`, which `error.rs` does not declare. The model adds a `Database` variant, with the display prefix `Database Error: `.

## Model

| member | source | states |
|---|---|---|
| Errors.DisplayInjective | src-tauri/src/error.rs:6-23 | two errors with the same display text are the same error: each variant's prefix and its message can be read back from the text |
| Errors.FromIoError | src-tauri/src/error.rs:25-29 | an I/O failure becomes an `Io` error carrying the failure's text, and displays as `IO Error: ` followed by it |
| Errors.FromHttpError | src-tauri/src/error.rs:31-35 | an HTTP client failure becomes a `Network` error with that text, displayed after `Network Error: ` |
| Errors.FromJsonError | src-tauri/src/error.rs:37-41 | a JSON failure becomes a `Serialization` error with that text, displayed after `Serialization Error: ` |
| Errors.FromText | src-tauri/src/error.rs:43-53 | plain text becomes an `Unexpected` error, displayed after `Unexpected Error: ` |
| Strings.TrimStart | src-tauri/src/services/db.rs:282 | the result is a suffix of the input that starts with a non-whitespace character, and everything dropped is whitespace |
| Strings.TrimTrailingSlashes | src-tauri/src/services/sync.rs:67 | the result is a prefix of the input that does not end in `/`, and everything dropped is `/` |
| Strings.TrimTrailingSlashesAbsorbs | src-tauri/src/services/proxy.rs:76 | an extra trailing slash trims away, and trimming twice equals trimming once |
| Strings.LexLeTotal | src-tauri/src/services/db.rs:160-170 | any two `created_at` texts are ordered one way or the other, so the descending listing always exists |
| Strings.LexLeTransitive | src-tauri/src/services/db.rs:160-170 | the text order used for `ORDER BY created_at` is transitive |
| Paths.Join | src-tauri/src/services/storage.rs:33 | joining an absolute path yields that path; joining a relative one onto a base without a trailing slash inserts one `/` |
| Paths.SplitConcat | src-tauri/src/services/storage.rs:141-142 | splitting text at `/` distributes over concatenation with a `/` between the parts |
| Paths.BodyConcat | src-tauri/src/services/storage.rs:141-142 | the components of concatenated pieces are the concatenated components |
| Paths.ComponentsTailInner | src-tauri/src/services/storage.rs:143 | every component after the first is `..` or a plain name, so a stripped remainder holds no root or `.` |
| Paths.RenderRelativeParses | src-tauri/src/services/storage.rs:143-145 | rendering a remainder of plain names and `..` as text and parsing it back gives the same components |
| Paths.JoinComponents | src-tauri/src/services/storage.rs:144 | joining a relative path appends exactly its components to the base's components |
| Paths.JoinRoot | src-tauri/src/services/storage.rs:144 | joining a relative path onto `/` gives the root followed by exactly the relative path's components |
| Paths.JoinAfterSlash | src-tauri/src/services/storage.rs:144 | joining onto a base that ends in `/` appends exactly the relative path's components to the base's |
| Paths.TrailingSlashIgnored | src-tauri/src/services/storage.rs:144 | a trailing `/` adds no component, so `a/b/` and `a/b` name the same place |
| Paths.ReplacePrefixComponents | src-tauri/src/services/storage.rs:141-145 | a path that starts with `oldBase`, with the remainder joined onto `newBase`, has `newBase`'s components followed by the remainder |
| Files.FileStore.Exists | src-tauri/src/services/storage.rs:50 | the answer is true exactly when the file is in the store |
| Files.FileStore.Read | src-tauri/src/services/storage.rs:58 | the content of a present file; `None` for a missing one |
| Files.FileStore.Rename | src-tauri/src/services/storage.rs:51 | succeeds exactly when the source exists, and then moves its content to the target, replacing what was there |
| Files.FileStore.Remove | src-tauri/src/lib.rs:40 | the file is gone afterwards, and the call succeeds exactly when it was there |
| Db.StatusName | src-tauri/src/services/db.rs:39-50 | every status prints as one of the six stored names, and parsing that name gives the status back |
| Db.ParseStatus | src-tauri/src/services/db.rs:20-37 | the fallback `DRAFT_READY` is produced exactly by `DRAFT_READY` itself and by text that is neither a stored name nor a remote status word |
| Db.CanonicalNames | src-tauri/src/services/db.rs:20-50 | parse-then-print returns the text exactly when it is one of the six stored names |
| Db.RemoteWordMeaning | src-tauri/src/services/db.rs:29-33 | the server's `uploaded` and `pending` read as `REMOTE_PENDING`, `processing` as `PROCESSING_REMOTE`, `completed` as `COMPLETED_SYNCED`, `failed` as `FAILED` |
| Db.Draft | src-tauri/src/services/db.rs:115-145 | a new draft has the given id, title, duration, path and `created_at` reading, status `DRAFT_READY`, no job id, no audio URL, retained audio, hash or results, and is not pinned offline |
| Db.WithStatus | src-tauri/src/services/db.rs:172-183 | only the named row's status changes; an absent id changes nothing; well-formed tables stay well-formed |
| Db.Finalized | src-tauri/src/services/db.rs:185-197 | the named row gets the job id, `PROCESSING_REMOTE` and no local file path; other rows are unchanged |
| Db.Synced | src-tauri/src/services/db.rs:199-229 | the named row becomes `COMPLETED_SYNCED` with the transcript, summary, per-speaker JSON and audio URL; other rows are unchanged |
| Db.WithLocalAudio | src-tauri/src/services/db.rs:231-243 | the row's retained-audio path is set, and it is pinned offline exactly when a path is given; nothing else changes |
| Db.Deleted | src-tauri/src/services/db.rs:245-251 | exactly the named row is removed, and the rest is unchanged |
| Db.DeleteIdempotent | src-tauri/src/services/db.rs:245-251 | deleting twice equals deleting once, and deleting an absent id changes nothing |
| Db.DeletedRemote | src-tauri/src/services/db.rs:356-362 | exactly the rows carrying the job id are removed |
| Db.StoredResults | src-tauri/src/services/db.rs:276-294 | covers each case: no transcript, one that does not look like JSON, one that fails to parse, and one that parses; the JSON's `text` and `segments` replace the stored values only when present |
| Db.JsonWithoutTextKeepsTranscript | src-tauri/src/services/db.rs:280-294 | a JSON-looking transcript that parses without a `text` member is stored as given |
| Db.Refreshed | src-tauri/src/services/db.rs:296-321 | the refresh keeps the row's identity, job id, local file, retained audio, hash, pin, duration and creation time, and takes the new title, parsed status word, stored transcript and per-speaker JSON, summary and audio URL |
| Db.RemoteRow | src-tauri/src/services/db.rs:322-353 | an inserted remote row carries the job id, title, `created_at`, parsed status, stored transcript and per-speaker JSON, summary and audio URL; it has zero duration, no local file, retained audio or hash, and is not pinned |
| Db.LatestExists | src-tauri/src/services/db.rs:160-170 | any non-empty set of rows has a row whose `created_at` is not earlier than any other's |
| Db.TakeLatest | src-tauri/src/services/db.rs:160-170 | appending the latest remaining row keeps the partial listing ordered, complete for the rows taken, and without repeats |
| Db.TakeLatestCovers | src-tauri/src/services/db.rs:160-170 | after taking the latest remaining row, the listing holds only table rows, covers every row not left, and nothing left is later than what is listed |
| Db.Database.constructor | src-tauri/src/services/db.rs:83-107 | a new ledger is empty |
| Db.Database.CreateDraft | src-tauri/src/services/db.rs:115-145 | inserts `Draft` (title, duration and `now` as given) under the fresh id and returns it; a taken id is a `Database` error that changes nothing |
| Db.Database.GetRecording | src-tauri/src/services/db.rs:147-158 | returns the row, or a `Database` error when there is none |
| Db.Database.GetAllRecordings | src-tauri/src/services/db.rs:160-170 | lists every row exactly once, latest `created_at` first |
| Db.Database.FindByRemoteId | src-tauri/src/services/db.rs:264-271 | finds some row carrying the job id, and reports none exactly when no row does |
| Db.Database.UpdateSyncStatus | src-tauri/src/services/db.rs:172-183 | the table becomes `WithStatus` of the old one |
| Db.Database.FinalizeUpload | src-tauri/src/services/db.rs:185-197 | the table becomes `Finalized` of the old one |
| Db.Database.MarkAsSynced | src-tauri/src/services/db.rs:199-229 | the table becomes `Synced` of the old one |
| Db.Database.SetLocalAudioPath | src-tauri/src/services/db.rs:231-243 | the table becomes `WithLocalAudio` of the old one |
| Db.Database.DeleteRecording | src-tauri/src/services/db.rs:245-251 | the table becomes `Deleted` of the old one |
| Db.Database.DeleteRemoteRecording | src-tauri/src/services/db.rs:356-362 | the table becomes `DeletedRemote` of the old one |
| Db.Database.UpsertRemoteRecording | src-tauri/src/services/db.rs:253-354 | refreshes the row that carries the job id with `Refreshed`, else inserts `RemoteRow` under the fresh id, both with the transcript stored by `StoredResults`; a taken fresh id is a `Database` error that changes nothing |
| Storage.ConfigFilesDistinct | src-tauri/src/services/storage.rs:31-44 | the ledger, its temporary copy and the settings file are three different paths |
| Storage.DefaultOutput | src-tauri/src/services/storage.rs:82-85 | uses the caller's default when given; otherwise the path is `HOME` (or `.`) followed by `Documents/ScriberrRecordings` |
| Storage.NamedChild | src-tauri/src/services/storage.rs:84 | joining a plain name adds exactly that one component |
| Storage.RecordingsBelowHome | src-tauri/src/services/storage.rs:82-85 | the default output folder is the home folder's components followed by `Documents` and `ScriberrRecordings` |
| Storage.LoadSettings | src-tauri/src/services/storage.rs:79-104 | a missing file gives empty URL and key with the default output; an undecodable file is a `Serialization` error; a decoded file is returned as stored except that an empty output path becomes the default |
| Storage.SavedSettings | src-tauri/src/services/storage.rs:106-114 | the settings file holds the encoded settings, it is the only path added, and every other file is unchanged |
| Storage.LoadAfterSaveSettings | src-tauri/src/services/storage.rs:79-114 | loading after a save returns the saved settings whenever their output path is set |
| Storage.PromoteTmp | src-tauri/src/services/storage.rs:50-52 | a leftover temporary file replaces the ledger and disappears; no other file changes |
| Storage.LoadedLedger | src-tauri/src/services/storage.rs:46-61 | after promotion, no ledger gives no entries, and a ledger is decoded, a decode failure being a `Serialization` error |
| Storage.SavedLedger | src-tauri/src/services/storage.rs:63-77 | afterwards the ledger holds the JSON, the temporary file is gone, and no other file changes |
| Storage.LoadAfterSaveLedger | src-tauri/src/services/storage.rs:46-77 | loading after a save returns the saved entries and leaves the files as saved |
| Storage.LeftoverTmpIsRead | src-tauri/src/services/storage.rs:50-59 | when a temporary file is left over, its content is what is read |
| Storage.LoadLedger | src-tauri/src/services/storage.rs:46-61 | the file store and the result are those of `LoadedLedger` |
| Storage.SaveLedger | src-tauri/src/services/storage.rs:63-77 | the file store becomes `SavedLedger` of the old one |
| Storage.Migrated | src-tauri/src/services/storage.rs:140-148 | an entry changes at most its file path, and only when the path lies below the old folder |
| Storage.MigratedPath | src-tauri/src/services/storage.rs:141-145 | a moved entry's path is the new folder followed by what lay below the old one |
| Storage.AnyBelowMeans | src-tauri/src/services/storage.rs:139-147 | the `changed` flag's definition holds exactly when some entry lies below the old folder |
| Storage.AnyPassesMeans | src-tauri/src/services/storage.rs:139-150 | the running `changed` flag over the entries is true exactly when some entry passes the test |
| Storage.RewriteEntries | src-tauri/src/services/storage.rs:139-149 | each entry is rewritten by `Migrated`, the order and count are kept, and `changed` says whether any entry matched |
| Storage.MigrateLedger | src-tauri/src/services/storage.rs:138-153 | the ledger is saved with the rewritten entries only when it loaded and some entry matched; otherwise only the load's promotion of the temporary file happens |
| Sync.FileName | src-tauri/src/services/sync.rs:72-75 | there is a file name exactly when the path's last component is a plain name, and the name is that component |
| Sync.FileNameOfChild | src-tauri/src/services/sync.rs:72-75 | a file joined onto a folder under a plain name has that name as its file name |
| Sync.UploadEndpoint | src-tauri/src/services/sync.rs:67-68 | the endpoint ends in `/api/v1/transcription/upload`, and what precedes that is exactly the configured URL without trailing slashes |
| Sync.Upload | src-tauri/src/services/sync.rs:44-115 | only the named row can change, the table stays well-formed, and a failed pre-check (settings, configuration, row, path, file) changes nothing and is an error |
| Sync.UploadPrecheck | src-tauri/src/services/sync.rs:46-60 | the checks fail in order with their own errors: the settings error, `Validation("Settings not configured")`, then `NotFound` with "Recording not found", "File path missing" and "File not found on disk"; each keeps the table and files |
| Sync.Exchanged | src-tauri/src/services/sync.rs:62-111 | an accepted reply moves the row to `PROCESSING_REMOTE` with the job id and drops the local file unless pinned; any other reply is a `Network` error that keeps the files and leaves the row `FAILED` on a refusal, else `UPLOADING`; other rows never change |
| Sync.UploadSucceeds | src-tauri/src/services/sync.rs:44-115 | an upload succeeds exactly when every check passes and the server accepts the file with a job id; the row then waits in `PROCESSING_REMOTE` with the job id and no local file, which is deleted unless the row is pinned |
| Sync.UploadFails | src-tauri/src/services/sync.rs:89-111 | a failed exchange is a `Network` error that keeps the files; the row is `FAILED` when the server refused or was unreachable, and `UPLOADING` when a 2xx reply could not be read |
| Sync.UploadOnce | src-tauri/src/services/sync.rs:56 | after a successful upload, uploading the same recording again fails with `File path missing` |
| Sync.UploadSkipsRemotePending | src-tauri/src/services/sync.rs:63-108 | an upload leaves the row's status as it was, or `UPLOADING`, `FAILED` or `PROCESSING_REMOTE` |
| Sync.AudioUrl | src-tauri/src/services/sync.rs:155 | the stored audio URL starts with the job's URL, and what follows it is exactly `/audio` |
| Sync.PendingOf | src-tauri/src/services/sync.rs:119-122 | the visited rows are exactly the listing's rows in `PROCESSING_REMOTE` |
| Sync.PendingDistinct | src-tauri/src/services/sync.rs:119-122 | filtering a listing without repeats gives rows without repeats |
| Sync.Visit | src-tauri/src/services/sync.rs:137-185 | one job check changes at most its own row. A row without a job id, a failed fetch, a non-2xx reply and any status other than `completed` or `failed` change nothing and emit nothing. `completed` stores the results with `Synced` and `failed` sets `FAILED`, each emitting the row as read back. An unreadable body ends the poll with a `Network` error |
| Sync.PollFrom | src-tauri/src/services/sync.rs:137-188 | the loop keeps the table's rows and well-formedness, only appends events, and fails only with a `Network` error |
| Sync.Polled | src-tauri/src/services/sync.rs:117-189 | no pending rows, or unconfigured settings, change nothing and succeed; a settings error is returned before any request |
| Sync.PollTouchesOnlyPending | src-tauri/src/services/sync.rs:137-186 | rows that are not visited stay as they were, and every changed row ends `COMPLETED_SYNCED` or `FAILED` |
| Sync.PollEventsAreFinal | src-tauri/src/services/sync.rs:168-177 | with each row visited once, every emitted event is that row's state at the end of the poll |
| Sync.PollCompletes | src-tauri/src/services/sync.rs:149-170 | a visited job the server reports `completed` ends `COMPLETED_SYNCED` with its transcript, summary, per-speaker JSON and audio URL |
| Sync.PollFails | src-tauri/src/services/sync.rs:173-177 | a visited job the server reports `failed` ends `FAILED`, with every other field of the row as it was |
| Sync.PolledEffect | src-tauri/src/services/sync.rs:117-189 | over a listing of the table: rows not in `PROCESSING_REMOTE` are untouched, changed rows end `COMPLETED_SYNCED` or `FAILED`, and every event is its row's final state |
| Sync.PolledVisitsOnly | src-tauri/src/services/sync.rs:137-188 | when no row outside `PROCESSING_REMOTE` is pending, those rows are untouched, changed rows end `COMPLETED_SYNCED` or `FAILED`, and every event is its row's final state |
| Sync.OnlyPendingVisited | src-tauri/src/services/sync.rs:119-122 | a row of the table not in `PROCESSING_REMOTE` is not among the pending rows of its listing |
| Sync.SyncService.constructor | src-tauri/src/services/sync.rs:26-28 | the service works on the given ledger and file store |
| Sync.SyncService.UploadRecording | src-tauri/src/services/sync.rs:44-115 | the ledger, files and result are those of `Upload` on the old state, with the settings as loaded from the store |
| Sync.SyncService.SendUpload | src-tauri/src/services/sync.rs:63-113 | marking the row `UPLOADING`, sending and recording the reply leave the ledger, files and result of `Exchanged` |
| Sync.SyncService.VisitPending | src-tauri/src/services/sync.rs:138-185 | one job check, matching `Visit` on the ledger |
| Sync.SyncService.VisitAll | src-tauri/src/services/sync.rs:137-188 | the loop over the pending rows matches `PollFrom` |
| Sync.SyncService.Poll | src-tauri/src/services/sync.rs:117-189 | the ledger, events and result are those of `Polled` over the old ledger's listing |
| Sync.SyncService.PollPending | src-tauri/src/services/sync.rs:124-188 | with the pending rows given, the ledger, events and result are those of `Polled` with the loaded settings |
| Proxy.UpstreamUrl | src-tauri/src/services/proxy.rs:76 | the upstream URL is the base URL without trailing slashes, followed by exactly `/api/v1/transcription/`, the job id and `/audio` |
| Proxy.UpstreamUrlDistinguishesJobs | src-tauri/src/services/proxy.rs:76 | two job ids reach the same upstream URL only when they are the same id |
| Proxy.UpstreamUrlIgnoresTrailingSlash | src-tauri/src/services/proxy.rs:76 | a trailing slash on the configured URL reaches the same upstream |
| Proxy.FailureStatus | src-tauri/src/services/proxy.rs:104-111 | upstream 401 and 403 give 403, 404 gives 404, any other failure gives 502 |
| Proxy.UpstreamHeaders | src-tauri/src/services/proxy.rs:80-87 | the upstream request carries the API key, plus the player's `Range` exactly when it sent one |
| Proxy.ProxyHandler | src-tauri/src/services/proxy.rs:58-140 | no URL gives 503 without a request; a send failure gives 502; a failed status is mapped; a success passes status, body and the four media headers on, with `access-control-allow-origin: *` |
| Discovery.AsRunnable | src-tauri/src/services/discovery.rs:29-34 | the listed app has the bundle id, pid and name (empty when unknown), and no icon |
| Discovery.MeetingApps | src-tauri/src/services/discovery.rs:24-37 | every listed app is one of the four meeting clients, and none is invented |
| Discovery.MeetingAppsConcat | src-tauri/src/services/discovery.rs:26-37 | the filter works application by application, in order |
| Discovery.MeetingAppsSingle | src-tauri/src/services/discovery.rs:27-35 | one application is listed exactly when its bundle id is a meeting client's |
| Discovery.OthersIgnored | src-tauri/src/services/discovery.rs:27-28 | an application that is not a meeting client, or has no bundle id, does not change the result |
| Discovery.MeetingAppsMembers | src-tauri/src/services/discovery.rs:17-37 | every running meeting client is listed, and everything listed is a running meeting client |
| Discovery.GetRunningMeetingApps | src-tauri/src/services/discovery.rs:13-40 | always succeeds, with the meeting clients in the order they run |
| Recorder.EnabledSources | src-tauri/src/recorder.rs:142-147 | system audio is enabled exactly when the pid is not -1, the microphone exactly when a device name other than `None` is given |
| Recorder.StartResult | src-tauri/src/recorder.rs:123-247 | a start succeeds exactly when the initial stop, the WAV writer, the device listing (if used), the window lookup and the capture start all succeed; without sources only the stop and the writer can fail |
| Recorder.AudioRecorder.constructor | src-tauri/src/recorder.rs:43-53 | a new recorder is idle: not paused, no writer, no mixer, no streams |
| Recorder.AudioRecorder.PauseRecording | src-tauri/src/recorder.rs:55-57 | sets the pause flag and nothing else |
| Recorder.AudioRecorder.ResumeRecording | src-tauri/src/recorder.rs:59-61 | clears the pause flag and nothing else |
| Recorder.AudioRecorder.StopRecording | src-tauri/src/recorder.rs:249-283 | ends in `Stopped`: streams and writer are always released and the pause flag kept; a finalisation failure is reported and keeps the mixer, otherwise the mixer is cleared |
| Recorder.AudioRecorder.StartRecording | src-tauri/src/recorder.rs:123-247 | returns `StartResult` and ends in `Started`: the full recorder state after a failed stop, a failed writer, and after the device listing, microphone and capture steps; a success leaves the writer open, the mixer built for the enabled sources and, with system audio, the capture running |
| Recorder.AudioRecorder.StartStreams | src-tauri/src/recorder.rs:163-246 | returns `StreamsResult`; a device-listing failure starts nothing; otherwise the microphone stream runs exactly when a device was named, found and played, and system capture exactly when an app was targeted, its window found and its capture started; the pause flag, writer and mixer are kept |
| Recorder.Deinterleave | src-tauri/src/recorder.rs:370-387 | an interleaved sequence splits back into its left and right channels |
| Recorder.InterleavePlanar | src-tauri/src/recorder.rs:370-380 | planar stereo is pushed as left, right, left, right, over half the samples each |
| Recorder.DuplicateMono | src-tauri/src/recorder.rs:381-387 | every mono sample is pushed twice, in order |
| Recorder.PassThrough | src-tauri/src/recorder.rs:388-393 | other layouts are pushed unchanged |
| Recorder.ChannelLayout | src-tauri/src/recorder.rs:359-366 | without a format description the buffer is interleaved stereo; otherwise the channel count is the format's, and planar means the non-interleaved flag (bit 5) is set |
| Recorder.DidOutputSampleBuffer | src-tauri/src/recorder.rs:299-398 | nothing is pushed for an unusable buffer or while paused; otherwise the samples are interleaved, duplicated or passed through according to the layout |
| Recorder.PushedChannels | src-tauri/src/recorder.rs:368-393 | what the callback pushes splits back into the buffer's planes, or into the mono signal on both channels |
| App.WithWavExtension | src-tauri/src/lib.rs:205 | the name ends with `.wav`; only a name not already ending so is extended |
| App.WithWavExtensionIdempotent | src-tauri/src/lib.rs:205 | normalising the extension twice equals normalising it once |
| App.RecordingName | src-tauri/src/lib.rs:200-205 | the file name ends with `.wav`; a requested name already ending in `.wav` is kept as it is, another gets `.wav` appended, and without one it is `recording_<timestamp>.wav` |
| App.AppState.constructor | src-tauri/src/lib.rs:15-21 | the app starts idle with the given output folder; the recorder is unpaused, with no writer, mixer, capture or microphone stream |
| App.AppState.ToggleRecording | src-tauri/src/lib.rs:184-218 | while recording, it stops the recorder (`Stopped`: no streams, no writer, pause flag kept, mixer per the finalisation) and clears the pid even if the stop fails, logging the finalisation error or `Ok`; otherwise it starts the recorder (`Started`, with `StartResult` logged), and only a successful start records the pid and the path in the output folder |
| App.AppState.StartRecordingCommand | src-tauri/src/lib.rs:30-34 | always reports success, with the toggle's effect: a stop clears the pid and leaves the recorder `Stopped`; a start leaves the recorder `Started`, and recording is on exactly when `StartResult` succeeds, with the pid and the path in the output folder recorded; a failed start keeps the pid and path; the output folder never changes |
| App.AppState.StopRecordingCommand | src-tauri/src/lib.rs:79-108 | `Not recording` when idle, with the recorder untouched; otherwise the recorder is `Stopped` (capture, microphone and writer released; the mixer kept only on a finalisation failure); a failed stop is reported and recording stays on; a successful stop returns the file path (empty if unknown) and the folder |
| App.AppState.PauseRecordingCommand | src-tauri/src/lib.rs:45-51 | succeeds and pauses the recorder; writer, mixer, capture and microphone stream are unchanged |
| App.AppState.ResumeRecordingCommand | src-tauri/src/lib.rs:53-59 | succeeds and resumes the recorder; writer, mixer, capture and microphone stream are unchanged |
| App.DeleteRecordingCommand | src-tauri/src/lib.rs:36-43 | succeeds, and the file is gone afterwards whether or not it existed |

## Left out

- The audio mixers are not modelled: the `f32` summing and clamping of system and microphone samples, the mixer thread, and its ring buffers. Samples the ring buffer drops when full are not modelled either; `Recorder.DidOutputSampleBuffer` states what is offered to the buffer.
- ScreenCaptureKit, CoreMedia, cpal and hound are foreign calls. The model keeps only their outcomes, as `Recorder.StartEnvironment` and `Recorder.CaptureBuffer`.
- `switch_microphone`, `get_microphones` and their commands are left out: they only enumerate and rebuild devices, which is foreign code.
- The SQLite connection, the schema migrations and the `cached_speaker_maps` table are left out. The model keeps one table as a map, and only the primary-key violation among SQLite's failures.
- `Db.Database.FindByRemoteId`: when several rows carry the same job id, the model picks any one of them, as the query does not fix which.
- The clock is not modelled: `create_draft` takes `created_at` from `chrono::Utc::now().to_rfc3339()`, and `Db.Database.CreateDraft` takes that reading as the text parameter `now`.
- The periodic ticker of `SyncService::start`, which calls `poll` every few seconds, is left out, as is the Tauri event bus: emitted events are the `events` output of `Sync.SyncService.Poll`.
- `Sync.SyncService.Poll` skips the event when the row cannot be read back. That cannot happen in the model, where the row always exists.
- Network transfer, multipart encoding and response streaming are represented by the `send`/`fetch` replies.
- An invalid header value, which makes `reqwest` fail, is a send failure.
- The response builder's 500 path in the proxy cannot occur with the header values modelled, and is left out.
- Header maps keep one value per lower-case name.
- The physical file moves of `migrate_recordings` (the directory walk and the renames) are left out; `Storage.MigrateLedger` models only the ledger rewrite that follows them.
- I/O failures of the file system are left out: `create_dir_all`, and a write or rename that fails, unreadable files, and `read` failing after `exists` succeeded. The file store's operations always succeed on a present file. The ignored result of the first rename in `load_ledger` is modelled as ignored.
- `Storage.MigratedPath`: the remainder is re-rendered from normalised components, in `Paths.StripPrefix` as used by `Storage.Migrated` and `Storage.RewriteEntries`. So a path with repeated or trailing slashes, or with inner `.` pieces such as `a/./b`, gets the same components but not the same text as `Path::join` on the stripped path.
- UUID generation, the clock and the `HOME` variable are parameters.
- `duration_sec` (`f64`) is a `real`, without rounding.
- `retry_count` (`u32`) is a `nat`: the ledger never increments it, so wrap-around does not arise.
- The UI is left out: tray icon, window management, the global shortcut and `run`'s setup (`lib.rs` lines 111-180). `AppState` is modelled from its fields.
- `get_apps` only wraps `Discovery.GetRunningMeetingApps`, which cannot fail.
- `proxy.rs`'s server start-up (binding a port, shutdown signal) is left out.
- `Strings.TrimStart` drops leading whitespace only. The trailing side of `trim()` does not affect the `starts_with('{')` test it feeds.
