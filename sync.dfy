/**
 * `SyncService`: uploading one recording to the Scriberr server and polling the jobs
 * the server is still processing. HTTP exchanges are functions from the request sent
 * to the reply received; the settings are read from the same file store the model
 * keeps the recordings in.
 */
module Sync {
  import opened Wrappers
  import opened Errors
  import opened Strings
  import opened Paths
  import opened Db
  import opened Storage
  import Files

  /** `StatusCode::is_success`. */
  predicate IsSuccess(status: int) {
    200 <= status <= 299
  }

  predicate Configured(s: Settings) {
    s.scriberr_url != "" && s.api_key != ""
  }

  /** `Path::file_name`: the last component when it is a plain name. */
  function FileName(p: string): (r: Option<string>)
    ensures r.Some? <==> Components(p) != [] && Components(p)[|Components(p)| - 1].Normal?
    ensures r.Some? ==> Components(p)[|Components(p)| - 1] == Normal(r.value)
  {
    var cs := Components(p);
    if cs != [] && cs[|cs| - 1].Normal? then Some(cs[|cs| - 1].name) else None
  }

  /** The file name of a file joined onto a folder is the name it was joined with. */
  lemma FileNameOfChild(dir: string, name: string)
    requires name != [] && name[0] != '/' && '/' !in name && name != "." && name != ".."
    ensures FileName(Join(dir, name)) == Some(name)
  {
    NamedChild(dir, name);
  }

  //---------------------------------------------------------------- upload

  /** The multipart POST: endpoint, `X-API-Key`, the `audio` part's file name and bytes,
      and the `title` field. */
  datatype UploadRequest = UploadRequest(url: string, apiKey: string, fileName: string, title: string, audio: string)

  /** A 2xx body: not JSON at all, or JSON whose `"id"` is a string (`Some`) or not (`None`). */
  datatype UploadBody = NotJson(error: string) | Body(id: Option<string>)

  /** `statusText` is the status as `StatusCode` displays it, e.g. `404 Not Found`. */
  datatype UploadReply = SendFailed(error: string) | Reply(status: int, statusText: string, body: UploadBody)

  function UploadEndpoint(url: string): (r: string)
    ensures EndsWith(r, "/api/v1/transcription/upload")
    ensures r[..|r| - |"/api/v1/transcription/upload"|] == TrimTrailingSlashes(url)
  {
    TrimTrailingSlashes(url) + "/api/v1/transcription/upload"
  }

  function UploadRequestFor(s: Settings, rec: CachedRecording, path: string, audio: string): UploadRequest {
    UploadRequest(UploadEndpoint(s.scriberr_url), s.api_key, FileName(path).GetOr("recording.wav"), rec.title, audio)
  }

  /** All checks before anything is changed pass. */
  predicate Ready(t: Table, files: map<string, string>, settings: Result<Settings, AppError>, id: string) {
    settings.Ok? && Configured(settings.value) && id in t && t[id].local_file_path.Some? &&
    t[id].local_file_path.value in files
  }

  /** The server took the file and named the job. */
  predicate Accepted(reply: UploadReply) {
    reply.Reply? && IsSuccess(reply.status) && reply.body.Body? && reply.body.id.Some?
  }

  /** The reply marks the upload as failed: no answer, or a non-2xx one. */
  predicate Refused(reply: UploadReply) {
    reply.SendFailed? || !IsSuccess(reply.status)
  }

  datatype UploadOutcome = UploadOutcome(rows: Table, files: map<string, string>, result: Result<CachedRecording, AppError>)

  /** `upload_recording`: the table, the files and the result afterwards. */
  function Upload(t: Table, files: map<string, string>, settings: Result<Settings, AppError>, id: string,
                  send: UploadRequest -> UploadReply): (r: UploadOutcome)
    ensures r.rows.Keys == t.Keys
    ensures forall k :: k in t && k != id ==> r.rows[k] == t[k]
    ensures WellFormed(t) ==> WellFormed(r.rows)
    ensures !Ready(t, files, settings, id) ==> r.rows == t && r.files == files && r.result.Err?
  {
    if !Ready(t, files, settings, id) then UploadOutcome(t, files, Err(PrecheckError(t, files, settings, id)))
    else Exchanged(t, files, id, ReplyFor(t, files, settings.value, id, send))
  }

  /** The first check of `upload_recording` that fails, in the order they are made. */
  function PrecheckError(t: Table, files: map<string, string>, settings: Result<Settings, AppError>, id: string)
    : AppError
    requires !Ready(t, files, settings, id)
  {
    if settings.Err? then settings.error
    else if !Configured(settings.value) then Validation("Settings not configured")
    else if id !in t then NotFound("Recording not found")
    else if t[id].local_file_path.None? then NotFound("File path missing")
    else NotFound("File not found on disk")
  }

  /** The upload once every check has passed: the row is `UPLOADING` while the request
      is out, and `reply` is what the server answers. */
  function Exchanged(t: Table, files: map<string, string>, id: string, reply: UploadReply): (r: UploadOutcome)
    requires id in t && t[id].local_file_path.Some?
    ensures r.rows.Keys == t.Keys
    ensures forall k :: k in t && k != id ==> r.rows[k] == t[k]
    ensures WellFormed(t) ==> WellFormed(r.rows)
    ensures r.result.Ok? <==> Accepted(reply)
    ensures Accepted(reply) ==>
              && r.result.value == r.rows[id]
              && r.rows[id] == t[id].(sync_status := "PROCESSING_REMOTE", remote_job_id := Some(reply.body.id.value),
                                      local_file_path := None)
              && r.files == (if t[id].keep_offline then files else files - {t[id].local_file_path.value})
    ensures !Accepted(reply) ==>
              && r.result.Err? && r.result.error.Network? && r.files == files
              && r.rows[id] == t[id].(sync_status := if Refused(reply) then "FAILED" else "UPLOADING")
  {
    var rec := t[id];
    var uploading := WithStatus(t, id, Uploading);
    match reply
    case SendFailed(e) => UploadOutcome(WithStatus(uploading, id, Failed), files, Err(FromHttpError(e)))
    case Reply(status, text, body) =>
      if !IsSuccess(status) then
        UploadOutcome(WithStatus(uploading, id, Failed), files, Err(Network("Upload failed: " + text)))
      else match body
        case NotJson(e) => UploadOutcome(uploading, files, Err(FromHttpError(e)))
        case Body(None) => UploadOutcome(uploading, files, Err(Network("Invalid response from server")))
        case Body(Some(remoteId)) =>
          var done := Finalized(uploading, id, remoteId);
          UploadOutcome(done, if rec.keep_offline then files else files - {rec.local_file_path.value}, Ok(done[id]))
  }

  /** The reply `send` gives to the request an upload of `id` would make. */
  function ReplyFor(t: Table, files: map<string, string>, s: Settings, id: string,
                    send: UploadRequest -> UploadReply): UploadReply
    requires id in t && t[id].local_file_path.Some? && t[id].local_file_path.value in files
  {
    var path := t[id].local_file_path.value;
    send(UploadRequestFor(s, t[id], path, files[path]))
  }

  /** An upload succeeds exactly when every check passes and the server accepts the file;
      the row then waits for the server in `PROCESSING_REMOTE`, names the job, and no
      longer points at a local file, which is deleted unless the row is kept offline. */
  lemma UploadSucceeds(t: Table, files: map<string, string>, settings: Result<Settings, AppError>, id: string,
                       send: UploadRequest -> UploadReply)
    ensures var r := Upload(t, files, settings, id, send);
            r.result.Ok? <==> Ready(t, files, settings, id) && Accepted(ReplyFor(t, files, settings.value, id, send))
    ensures var r := Upload(t, files, settings, id, send);
            r.result.Ok? ==>
              var path := t[id].local_file_path.value;
              var remoteId := ReplyFor(t, files, settings.value, id, send).body.id.value;
              && r.result.value == r.rows[id]
              && r.rows[id] == t[id].(sync_status := "PROCESSING_REMOTE", remote_job_id := Some(remoteId),
                                      local_file_path := None)
              && r.files == (if t[id].keep_offline then files else files - {path})
  {
  }

  /** The checks before anything is changed, in the order `upload_recording` makes them:
      each failing one is reported with its own error, and the table and files are kept. */
  lemma UploadPrecheck(t: Table, files: map<string, string>, settings: Result<Settings, AppError>, id: string,
                       send: UploadRequest -> UploadReply)
    ensures settings.Err? ==> Upload(t, files, settings, id, send) == UploadOutcome(t, files, Err(settings.error))
    ensures settings.Ok? && !Configured(settings.value) ==>
              Upload(t, files, settings, id, send) == UploadOutcome(t, files, Err(Validation("Settings not configured")))
    ensures settings.Ok? && Configured(settings.value) && id !in t ==>
              Upload(t, files, settings, id, send) == UploadOutcome(t, files, Err(NotFound("Recording not found")))
    ensures settings.Ok? && Configured(settings.value) && id in t && t[id].local_file_path.None? ==>
              Upload(t, files, settings, id, send) == UploadOutcome(t, files, Err(NotFound("File path missing")))
    ensures settings.Ok? && Configured(settings.value) && id in t && t[id].local_file_path.Some? &&
            t[id].local_file_path.value !in files ==>
              Upload(t, files, settings, id, send) == UploadOutcome(t, files, Err(NotFound("File not found on disk")))
  {
  }

  /** A failed upload leaves the row `FAILED` when the server refused or could not be
      reached, and `UPLOADING` when a 2xx reply could not be understood; files stay. */
  lemma UploadFails(t: Table, files: map<string, string>, settings: Result<Settings, AppError>, id: string,
                    send: UploadRequest -> UploadReply)
    requires Ready(t, files, settings, id) && !Accepted(ReplyFor(t, files, settings.value, id, send))
    ensures var r := Upload(t, files, settings, id, send);
            && r.result.Err? && r.result.error.Network?
            && r.files == files
            && r.rows[id] == t[id].(sync_status := if Refused(ReplyFor(t, files, settings.value, id, send))
                                                   then "FAILED" else "UPLOADING")
  {
  }

  /** Once uploaded, a recording cannot be uploaded again: it has no local file any more. */
  lemma UploadOnce(t: Table, files: map<string, string>, settings: Result<Settings, AppError>, id: string,
                   send: UploadRequest -> UploadReply, sendAgain: UploadRequest -> UploadReply)
    requires Upload(t, files, settings, id, send).result.Ok?
    ensures var r := Upload(t, files, settings, id, send);
            Upload(r.rows, r.files, settings, id, sendAgain) == UploadOutcome(r.rows, r.files, Err(NotFound("File path missing")))
  {
    UploadSucceeds(t, files, settings, id, send);
  }

  /** The upload never puts a row into `REMOTE_PENDING`. */
  lemma UploadSkipsRemotePending(t: Table, files: map<string, string>, settings: Result<Settings, AppError>, id: string,
                                 send: UploadRequest -> UploadReply)
    requires id in t
    ensures var r := Upload(t, files, settings, id, send);
            r.rows[id].sync_status in {t[id].sync_status, "UPLOADING", "FAILED", "PROCESSING_REMOTE"}
  {
    if Ready(t, files, settings, id) {
      if Accepted(ReplyFor(t, files, settings.value, id, send)) {
        UploadSucceeds(t, files, settings, id, send);
      } else {
        UploadFails(t, files, settings, id, send);
      }
    }
  }

  //---------------------------------------------------------------- poll

  /** The GET for one job. */
  datatype JobRequest = JobRequest(url: string, apiKey: string)

  /** The `RemoteJob` fields the poll reads. */
  datatype RemoteJob = RemoteJob(status: string, transcript: Option<string>, summary: Option<string>,
                                 individual_transcripts: Option<string>)

  datatype JobBody = Undecodable(error: string) | Decoded(job: RemoteJob)

  datatype JobFetch = FetchFailed(error: string) | Fetched(status: int, body: JobBody)

  function JobUrl(base: string, remoteId: string): string {
    base + "/api/v1/transcription/jobs/" + remoteId
  }

  function AudioUrl(base: string, remoteId: string): (r: string)
    ensures StartsWith(r, JobUrl(base, remoteId)) && r[|JobUrl(base, remoteId)|..] == "/audio"
  {
    JobUrl(base, remoteId) + "/audio"
  }

  /** The rows `poll` visits: those of the listing in `PROCESSING_REMOTE`, in listing order. */
  function PendingOf(listing: seq<CachedRecording>): (r: seq<CachedRecording>)
    ensures forall i :: 0 <= i < |r| ==> r[i] in listing && r[i].sync_status == "PROCESSING_REMOTE"
    ensures forall i :: 0 <= i < |listing| && listing[i].sync_status == "PROCESSING_REMOTE" ==> listing[i] in r
    ensures |r| <= |listing|
  {
    if listing == [] then []
    else (if listing[0].sync_status == "PROCESSING_REMOTE" then [listing[0]] else []) + PendingOf(listing[1..])
  }

  /** No `local_id` occurs twice. */
  predicate Distinct(rs: seq<CachedRecording>) {
    forall i, j :: 0 <= i < j < |rs| ==> rs[i].local_id != rs[j].local_id
  }

  function IdsOf(rs: seq<CachedRecording>): set<string> {
    set i | 0 <= i < |rs| :: rs[i].local_id
  }

  lemma {:induction false} PendingDistinct(listing: seq<CachedRecording>)
    requires Distinct(listing)
    ensures Distinct(PendingOf(listing))
  {
    if listing != [] {
      var rest := listing[1..];
      PendingDistinct(rest);
      forall x | x in PendingOf(rest) ensures x.local_id != listing[0].local_id {
        var j :| 0 <= j < |rest| && rest[j] == x;
        assert listing[j + 1] == x;
      }
    }
  }

  /** The `recording-updated` event `poll` emits after changing `id`: the row as read back. */
  function Emitted(t: Table, id: string): seq<CachedRecording> {
    if id in t then [t[id]] else []
  }

  datatype Step = Next(rows: Table, emitted: seq<CachedRecording>) | Abort(error: AppError)

  /** One pending row: a row without a job id, an unreachable server and a non-2xx reply
      are skipped; a body that does not decode ends the poll. */
  function Visit(t: Table, rec: CachedRecording, base: string, key: string, fetch: JobRequest -> JobFetch): (r: Step)
    ensures r.Next? ==> r.rows.Keys == t.Keys && (WellFormed(t) ==> WellFormed(r.rows))
    ensures r.Next? ==> forall k :: k in t && k != rec.local_id ==> r.rows[k] == t[k]
    ensures r.Next? ==> r.emitted == [] || r.emitted == Emitted(r.rows, rec.local_id)
    ensures r.Next? && r.rows != t ==>
              rec.local_id in t && r.rows[rec.local_id].sync_status in {"COMPLETED_SYNCED", "FAILED"}
    ensures r.Abort? ==> r.error.Network?
    ensures rec.remote_job_id.None? ==> r == Next(t, [])
    ensures rec.remote_job_id.Some? ==>
              var f := fetch(JobRequest(JobUrl(base, rec.remote_job_id.value), key));
              && (f.FetchFailed? || !IsSuccess(f.status) ==> r == Next(t, []))
              && (f.Fetched? && IsSuccess(f.status) && f.body.Undecodable? ==> r == Abort(Network(f.body.error)))
              && (f.Fetched? && IsSuccess(f.status) && f.body.Decoded? ==>
                    var job := f.body.job;
                    && (job.status == "completed" ==>
                          r.Next? && r.emitted == Emitted(r.rows, rec.local_id) &&
                          r.rows == Synced(t, rec.local_id, job.transcript.GetOr(""), job.summary,
                                           job.individual_transcripts, AudioUrl(base, rec.remote_job_id.value)))
                    && (job.status == "failed" ==>
                          r.Next? && r.emitted == Emitted(r.rows, rec.local_id) &&
                          r.rows == WithStatus(t, rec.local_id, Failed))
                    && (job.status != "completed" && job.status != "failed" ==> r == Next(t, [])))
  {
    match rec.remote_job_id
    case None => Next(t, [])
    case Some(rid) =>
      match fetch(JobRequest(JobUrl(base, rid), key))
      case FetchFailed(_) => Next(t, [])
      case Fetched(status, body) =>
        if !IsSuccess(status) then Next(t, [])
        else match body
          case Undecodable(e) => Abort(FromHttpError(e))
          case Decoded(job) =>
            if job.status == "completed" then
              var after := Synced(t, rec.local_id, job.transcript.GetOr(""), job.summary,
                                  job.individual_transcripts, AudioUrl(base, rid));
              Next(after, Emitted(after, rec.local_id))
            else if job.status == "failed" then
              var after := WithStatus(t, rec.local_id, Failed);
              Next(after, Emitted(after, rec.local_id))
            else Next(t, [])
  }

  datatype PollOutcome = PollOutcome(rows: Table, events: seq<CachedRecording>, result: Result<(), AppError>)

  /** The loop of `poll` over the rows still to visit, with the events emitted so far. */
  function PollFrom(t: Table, events: seq<CachedRecording>, pending: seq<CachedRecording>, base: string, key: string,
                    fetch: JobRequest -> JobFetch): (r: PollOutcome)
    ensures r.rows.Keys == t.Keys
    ensures WellFormed(t) ==> WellFormed(r.rows)
    ensures |events| <= |r.events| && r.events[..|events|] == events
    ensures r.result.Err? ==> r.result.error.Network?
    decreases |pending|
  {
    if pending == [] then PollOutcome(t, events, Ok(()))
    else match Visit(t, pending[0], base, key, fetch)
      case Abort(e) => PollOutcome(t, events, Err(e))
      case Next(after, emitted) => PollFrom(after, events + emitted, pending[1..], base, key, fetch)
  }

  /** `poll` on the table, given the rows it visits and the settings it loads. */
  function Polled(t: Table, pending: seq<CachedRecording>, settings: Result<Settings, AppError>,
                fetch: JobRequest -> JobFetch): (r: PollOutcome)
    ensures r.rows.Keys == t.Keys
    ensures WellFormed(t) ==> WellFormed(r.rows)
    ensures pending == [] || (settings.Ok? && !Configured(settings.value)) ==> r == PollOutcome(t, [], Ok(()))
    ensures pending != [] && settings.Err? ==> r == PollOutcome(t, [], Err(settings.error))
  {
    if pending == [] then PollOutcome(t, [], Ok(()))
    else if settings.Err? then PollOutcome(t, [], Err(settings.error))
    else if !Configured(settings.value) then PollOutcome(t, [], Ok(()))
    else PollFrom(t, [], pending, TrimTrailingSlashes(settings.value.scriberr_url), settings.value.api_key, fetch)
  }

  /** Rows the poll does not visit are untouched, and every row it changes ends
      `COMPLETED_SYNCED` or `FAILED`. */
  lemma {:induction false} PollTouchesOnlyPending(t: Table, events: seq<CachedRecording>, pending: seq<CachedRecording>,
                                                  base: string, key: string, fetch: JobRequest -> JobFetch)
    ensures var r := PollFrom(t, events, pending, base, key, fetch);
            forall k :: k in t && k !in IdsOf(pending) ==> r.rows[k] == t[k]
    ensures var r := PollFrom(t, events, pending, base, key, fetch);
            forall k :: k in t && r.rows[k] != t[k] ==> r.rows[k].sync_status in {"COMPLETED_SYNCED", "FAILED"}
    decreases |pending|
  {
    if pending != [] {
      var step := Visit(t, pending[0], base, key, fetch);
      if step.Next? {
        PollTouchesOnlyPending(step.rows, events + step.emitted, pending[1..], base, key, fetch);
        assert IdsOf(pending[1..]) <= IdsOf(pending) by {
          forall k | k in IdsOf(pending[1..]) ensures k in IdsOf(pending) {
            var i :| 0 <= i < |pending[1..]| && pending[1..][i].local_id == k;
            assert pending[i + 1].local_id == k;
          }
        }
        assert pending[0].local_id in IdsOf(pending);
      }
    }
  }

  lemma RestIds(pending: seq<CachedRecording>)
    requires pending != [] && Distinct(pending)
    ensures Distinct(pending[1..]) && pending[0].local_id !in IdsOf(pending[1..])
  {
  }

  /** With each row visited once, every emitted event is the row as the poll leaves it. */
  lemma {:induction false} PollEventsAreFinal(t: Table, events: seq<CachedRecording>, pending: seq<CachedRecording>,
                                              base: string, key: string, fetch: JobRequest -> JobFetch)
    requires WellFormed(t) && Distinct(pending)
    ensures var r := PollFrom(t, events, pending, base, key, fetch);
            forall i :: |events| <= i < |r.events| ==> r.events[i].local_id in r.rows && r.rows[r.events[i].local_id] == r.events[i]
    decreases |pending|
  {
    if pending != [] {
      var step := Visit(t, pending[0], base, key, fetch);
      if step.Next? {
        var id := pending[0].local_id;
        var mid := events + step.emitted;
        RestIds(pending);
        PollEventsAreFinal(step.rows, mid, pending[1..], base, key, fetch);
        PollTouchesOnlyPending(step.rows, mid, pending[1..], base, key, fetch);
        var r := PollFrom(t, events, pending, base, key, fetch);
        assert r == PollFrom(step.rows, mid, pending[1..], base, key, fetch);
        if step.emitted != [] {
          assert step.emitted == [step.rows[id]] && step.rows[id].local_id == id;
          assert r.rows[id] == step.rows[id];
          assert r.events[..|mid|] == mid;
          forall i | |events| <= i < |r.events|
            ensures r.events[i].local_id in r.rows && r.rows[r.events[i].local_id] == r.events[i]
          {
            if i < |mid| {
              assert r.events[i] == r.events[..|mid|][i] == mid[i] == step.rows[id];
            }
          }
        } else {
          assert mid == events;
          forall i | |events| <= i < |r.events|
            ensures r.events[i].local_id in r.rows && r.rows[r.events[i].local_id] == r.events[i]
          {
          }
        }
      }
    }
  }

  /** A visited job the server reports `completed` ends `COMPLETED_SYNCED` with its
      results and the audio URL, once the whole poll has gone through. */
  lemma {:induction false} PollCompletes(t: Table, events: seq<CachedRecording>, pending: seq<CachedRecording>,
                                         base: string, key: string, fetch: JobRequest -> JobFetch, n: nat)
    requires Distinct(pending) && n < |pending| && pending[n].local_id in t
    requires pending[n].remote_job_id.Some?
    requires var f := fetch(JobRequest(JobUrl(base, pending[n].remote_job_id.value), key));
             f.Fetched? && IsSuccess(f.status) && f.body.Decoded? && f.body.job.status == "completed"
    requires PollFrom(t, events, pending, base, key, fetch).result.Ok?
    ensures var job := fetch(JobRequest(JobUrl(base, pending[n].remote_job_id.value), key)).body.job;
            var row := PollFrom(t, events, pending, base, key, fetch).rows[pending[n].local_id];
            && row.sync_status == "COMPLETED_SYNCED"
            && row.transcript_text == Some(job.transcript.GetOr(""))
            && row.summary_text == job.summary
            && row.individual_transcripts_json == job.individual_transcripts
            && row.remote_audio_url == Some(AudioUrl(base, pending[n].remote_job_id.value))
    decreases |pending|
  {
    var step := Visit(t, pending[0], base, key, fetch);
    RestIds(pending);
    if n == 0 {
      PollTouchesOnlyPending(step.rows, events + step.emitted, pending[1..], base, key, fetch);
    } else {
      assert pending[1..][n - 1] == pending[n];
      PollCompletes(step.rows, events + step.emitted, pending[1..], base, key, fetch, n - 1);
    }
  }

  /** A visited job the server reports `failed` ends `FAILED`, with nothing else about
      the row changed, once the whole poll has gone through. */
  lemma {:induction false} PollFails(t: Table, events: seq<CachedRecording>, pending: seq<CachedRecording>,
                                     base: string, key: string, fetch: JobRequest -> JobFetch, n: nat)
    requires Distinct(pending) && n < |pending| && pending[n].local_id in t
    requires pending[n].remote_job_id.Some?
    requires var f := fetch(JobRequest(JobUrl(base, pending[n].remote_job_id.value), key));
             f.Fetched? && IsSuccess(f.status) && f.body.Decoded? && f.body.job.status == "failed"
    requires PollFrom(t, events, pending, base, key, fetch).result.Ok?
    ensures PollFrom(t, events, pending, base, key, fetch).rows[pending[n].local_id] ==
            t[pending[n].local_id].(sync_status := "FAILED")
    decreases |pending|
  {
    var step := Visit(t, pending[0], base, key, fetch);
    RestIds(pending);
    if n == 0 {
      PollTouchesOnlyPending(step.rows, events + step.emitted, pending[1..], base, key, fetch);
    } else {
      assert pending[1..][n - 1] == pending[n];
      assert pending[n].local_id != pending[0].local_id;
      PollFails(step.rows, events + step.emitted, pending[1..], base, key, fetch, n - 1);
    }
  }

  /** What `poll` does to a table, with the rows visited taken from a listing of it:
      rows not in `PROCESSING_REMOTE` stay as they are, every changed row ends
      `COMPLETED_SYNCED` or `FAILED`, and every emitted event is its row's final state. */
  lemma PolledEffect(t: Table, listing: seq<CachedRecording>, settings: Result<Settings, AppError>,
                     fetch: JobRequest -> JobFetch)
    requires WellFormed(t) && IsListing(t, listing)
    ensures var r := Polled(t, PendingOf(listing), settings, fetch);
            && (forall k :: k in t && t[k].sync_status != "PROCESSING_REMOTE" ==> r.rows[k] == t[k])
            && (forall k :: k in t && r.rows[k] != t[k] ==> r.rows[k].sync_status in {"COMPLETED_SYNCED", "FAILED"})
            && (forall i :: 0 <= i < |r.events| ==> r.events[i].local_id in r.rows && r.rows[r.events[i].local_id] == r.events[i])
  {
    assert Distinct(listing);
    PendingDistinct(listing);
    OnlyPendingVisited(t, listing);
    PolledVisitsOnly(t, PendingOf(listing), settings, fetch);
  }

  /** `PolledEffect` for any rows visited once each, none of them outside `PROCESSING_REMOTE`. */
  lemma PolledVisitsOnly(t: Table, pending: seq<CachedRecording>, settings: Result<Settings, AppError>,
                         fetch: JobRequest -> JobFetch)
    requires WellFormed(t) && Distinct(pending)
    requires forall k :: k in t && t[k].sync_status != "PROCESSING_REMOTE" ==> k !in IdsOf(pending)
    ensures var r := Polled(t, pending, settings, fetch);
            && (forall k :: k in t && t[k].sync_status != "PROCESSING_REMOTE" ==> r.rows[k] == t[k])
            && (forall k :: k in t && r.rows[k] != t[k] ==> r.rows[k].sync_status in {"COMPLETED_SYNCED", "FAILED"})
            && (forall i :: 0 <= i < |r.events| ==> r.events[i].local_id in r.rows && r.rows[r.events[i].local_id] == r.events[i])
  {
    if pending != [] && settings.Ok? && Configured(settings.value) {
      var base, key := TrimTrailingSlashes(settings.value.scriberr_url), settings.value.api_key;
      var none: seq<CachedRecording> := [];
      var r := PollFrom(t, none, pending, base, key, fetch);
      assert Polled(t, pending, settings, fetch) == r;
      PollTouchesOnlyPending(t, none, pending, base, key, fetch);
      PollEventsAreFinal(t, none, pending, base, key, fetch);
      assert var r2 := PollFrom(t, none, pending, base, key, fetch);
        forall i :: |none| <= i < |r2.events| ==> r2.events[i].local_id in r2.rows && r2.rows[r2.events[i].local_id] == r2.events[i];
    } else {
      assert Polled(t, pending, settings, fetch).rows == t && Polled(t, pending, settings, fetch).events == [];
    }
  }

  /** A row outside `PROCESSING_REMOTE` is not among the rows the poll visits. */
  lemma OnlyPendingVisited(t: Table, listing: seq<CachedRecording>)
    requires IsListing(t, listing)
    ensures forall k :: k in t && t[k].sync_status != "PROCESSING_REMOTE" ==> k !in IdsOf(PendingOf(listing))
  {
    var pending := PendingOf(listing);
    forall k | k in t && t[k].sync_status != "PROCESSING_REMOTE" ensures k !in IdsOf(pending) {
    }
  }

  //---------------------------------------------------------------- the service

  class SyncService {
    const db: Database
    const fs: Files.FileStore

    constructor (db: Database, fs: Files.FileStore)
      ensures this.db == db && this.fs == fs
    {
      this.db := db;
      this.fs := fs;
    }

    /** `upload_recording`; `home` and `decodeSettings` are what `load_settings(None)` reads
        with, `send` the server's answer to the POST. */
    method UploadRecording(id: string, home: Option<string>, decodeSettings: string -> Result<Settings, string>,
                           send: UploadRequest -> UploadReply)
      returns (r: Result<CachedRecording, AppError>)
      requires db.Valid()
      modifies db, fs
      ensures db.Valid()
      ensures UploadOutcome(db.rows, fs.files, r) ==
              Upload(old(db.rows), old(fs.files), LoadSettings(old(fs.files), home, None, decodeSettings), id, send)
    {
      var settings := LoadSettings(fs.files, home, None, decodeSettings);
      if settings.Err? {
        return Err(settings.error);
      }
      var s := settings.value;
      if s.scriberr_url == "" || s.api_key == "" {
        return Err(Validation("Settings not configured"));
      }
      var found := db.GetRecording(id);
      if found.Err? {
        return Err(NotFound("Recording not found"));
      }
      var recording := found.value;
      if recording.local_file_path.None? {
        return Err(NotFound("File path missing"));
      }
      var path := recording.local_file_path.value;
      var present := fs.Exists(path);
      if !present {
        return Err(NotFound("File not found on disk"));
      }
      var content := fs.Read(path);
      var request := UploadRequestFor(s, recording, path, content.value);
      r := SendUpload(id, request, send);
    }

    /** From `UPLOADING` to the server's answer: the status updates, the finalisation,
        and the pruning of the local file. */
    method SendUpload(id: string, request: UploadRequest, send: UploadRequest -> UploadReply)
      returns (r: Result<CachedRecording, AppError>)
      requires db.Valid() && id in db.rows && db.rows[id].local_file_path.Some?
      modifies db, fs
      ensures db.Valid()
      ensures UploadOutcome(db.rows, fs.files, r) == Exchanged(old(db.rows), old(fs.files), id, send(request))
    {
      var recording := db.rows[id];
      var path := recording.local_file_path.value;
      db.UpdateSyncStatus(id, Uploading);
      match send(request)
      case SendFailed(e) =>
        db.UpdateSyncStatus(id, Failed);
        return Err(FromHttpError(e));
      case Reply(status, text, body) =>
        if !IsSuccess(status) {
          db.UpdateSyncStatus(id, Failed);
          return Err(Network("Upload failed: " + text));
        }
        match body
        case NotJson(e) =>
          return Err(FromHttpError(e));
        case Body(None) =>
          return Err(Network("Invalid response from server"));
        case Body(Some(remoteId)) =>
          db.FinalizeUpload(id, remoteId);
          if !recording.keep_offline {
            var _ := fs.Remove(path);
          }
          r := db.GetRecording(id);
    }

    /** The body of `poll`'s loop for one pending row. */
    method VisitPending(rec: CachedRecording, base: string, key: string, fetch: JobRequest -> JobFetch)
      returns (abort: Option<AppError>, emitted: seq<CachedRecording>)
      requires db.Valid()
      modifies db
      ensures db.Valid()
      ensures match Visit(old(db.rows), rec, base, key, fetch)
              case Abort(e) => abort == Some(e) && db.rows == old(db.rows)
              case Next(after, events) => abort == None && db.rows == after && emitted == events
    {
      abort, emitted := None, [];
      if rec.remote_job_id.Some? {
        var rid := rec.remote_job_id.value;
        var reply := fetch(JobRequest(JobUrl(base, rid), key));
        if reply.Fetched? && IsSuccess(reply.status) {
          if reply.body.Undecodable? {
            return Some(FromHttpError(reply.body.error)), [];
          }
          var job := reply.body.job;
          if job.status == "completed" {
            db.MarkAsSynced(rec.local_id, job.transcript.GetOr(""), job.summary, job.individual_transcripts,
                            AudioUrl(base, rid));
            var updated := db.GetRecording(rec.local_id);
            if updated.Ok? {
              emitted := [updated.value];
            }
          } else if job.status == "failed" {
            db.UpdateSyncStatus(rec.local_id, Failed);
            var updated := db.GetRecording(rec.local_id);
            if updated.Ok? {
              emitted := [updated.value];
            }
          }
        }
      }
    }

    /** `poll`: `listing` is the `get_all_recordings` order it visited the table in;
        `events` are the `recording-updated` payloads, in emission order. */
    method Poll(home: Option<string>, decodeSettings: string -> Result<Settings, string>,
                fetch: JobRequest -> JobFetch)
      returns (r: Result<(), AppError>, events: seq<CachedRecording>, ghost listing: seq<CachedRecording>)
      requires db.Valid()
      modifies db
      ensures db.Valid()
      ensures IsListing(old(db.rows), listing)
      ensures PollOutcome(db.rows, events, r) ==
              Polled(old(db.rows), PendingOf(listing), LoadSettings(fs.files, home, None, decodeSettings), fetch)
    {
      var all := db.GetAllRecordings();
      listing := all;
      r, events := PollPending(PendingOf(all), home, decodeSettings, fetch);
    }

    /** `poll` once the pending rows are known. */
    method PollPending(pending: seq<CachedRecording>, home: Option<string>,
                       decodeSettings: string -> Result<Settings, string>, fetch: JobRequest -> JobFetch)
      returns (r: Result<(), AppError>, events: seq<CachedRecording>)
      requires db.Valid()
      modifies db
      ensures db.Valid()
      ensures PollOutcome(db.rows, events, r) ==
              Polled(old(db.rows), pending, LoadSettings(fs.files, home, None, decodeSettings), fetch)
    {
      events := [];
      if pending == [] {
        return Ok(()), events;
      }
      var settings := LoadSettings(fs.files, home, None, decodeSettings);
      if settings.Err? {
        return Err(settings.error), events;
      }
      if settings.value.scriberr_url == "" || settings.value.api_key == "" {
        return Ok(()), events;
      }
      var base := TrimTrailingSlashes(settings.value.scriberr_url);
      r, events := VisitAll(pending, base, settings.value.api_key, fetch);
    }

    /** The loop of `poll` over the pending rows. */
    method VisitAll(pending: seq<CachedRecording>, base: string, key: string, fetch: JobRequest -> JobFetch)
      returns (r: Result<(), AppError>, events: seq<CachedRecording>)
      requires db.Valid()
      modifies db
      ensures db.Valid()
      ensures PollOutcome(db.rows, events, r) == PollFrom(old(db.rows), [], pending, base, key, fetch)
    {
      events := [];
      var i := 0;
      while i < |pending|
        invariant 0 <= i <= |pending|
        invariant db.Valid()
        invariant PollFrom(db.rows, events, pending[i..], base, key, fetch) == PollFrom(old(db.rows), [], pending, base, key, fetch)
      {
        assert pending[i..][1..] == pending[i + 1..];
        var abort, emitted := VisitPending(pending[i], base, key, fetch);
        if abort.Some? {
          return Err(abort.value), events;
        }
        events := events + emitted;
        i := i + 1;
      }
      r := Ok(());
    }
  }
}
