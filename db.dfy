/**
 * The recording ledger: the `cached_recordings` table, the sync-status codec and
 * the `DatabaseService` operations on it.
 */
module Db {
  import opened Wrappers
  import opened Strings
  import opened Errors

  //---------------------------------------------------------------- status codec

  datatype SyncStatus = DraftReady | Uploading | RemotePending | ProcessingRemote | CompletedSynced | Failed

  /** The six names the ledger stores. */
  const LocalNames: set<string> :=
    {"DRAFT_READY", "UPLOADING", "REMOTE_PENDING", "PROCESSING_REMOTE", "COMPLETED_SYNCED", "FAILED"}

  /** The job status words of the remote transcription service. */
  const RemoteWords: set<string> := {"uploaded", "pending", "processing", "completed", "failed"}

  /** `ToString for SyncStatus`. */
  function StatusName(st: SyncStatus): (name: string)
    ensures name in LocalNames
    ensures ParseStatus(name) == st
  {
    match st
    case DraftReady => "DRAFT_READY"
    case Uploading => "UPLOADING"
    case RemotePending => "REMOTE_PENDING"
    case ProcessingRemote => "PROCESSING_REMOTE"
    case CompletedSynced => "COMPLETED_SYNCED"
    case Failed => "FAILED"
  }

  /** `From<String> for SyncStatus`: local names, then remote words, else `DraftReady`. */
  function ParseStatus(s: string): (st: SyncStatus)
    ensures st == DraftReady <==> s == "DRAFT_READY" || (s !in LocalNames && s !in RemoteWords)
  {
    match s
    case "DRAFT_READY" => DraftReady
    case "UPLOADING" => Uploading
    case "REMOTE_PENDING" => RemotePending
    case "PROCESSING_REMOTE" => ProcessingRemote
    case "COMPLETED_SYNCED" => CompletedSynced
    case "FAILED" => Failed
    case "uploaded" => RemotePending
    case "pending" => RemotePending
    case "processing" => ProcessingRemote
    case "completed" => CompletedSynced
    case "failed" => Failed
    case _ => DraftReady
  }

  /** A name survives a parse-and-print round trip exactly when it is one of the six local names. */
  lemma CanonicalNames(s: string)
    ensures StatusName(ParseStatus(s)) == s <==> s in LocalNames
  {
  }

  /** How the remote service's words are read. */
  lemma RemoteWordMeaning()
    ensures ParseStatus("uploaded") == RemotePending && ParseStatus("pending") == RemotePending
    ensures ParseStatus("processing") == ProcessingRemote
    ensures ParseStatus("completed") == CompletedSynced
    ensures ParseStatus("failed") == Failed
  {
  }

  //---------------------------------------------------------------- rows

  /** A row of `cached_recordings`; `duration_sec` is an `f64` in the source. */
  datatype CachedRecording = CachedRecording(
    local_id: string,
    remote_job_id: Option<string>,
    title: string,
    duration_sec: real,
    created_at: string,
    sync_status: string,
    local_file_path: Option<string>,
    remote_audio_url: Option<string>,
    local_audio_path: Option<string>,
    file_hash: Option<string>,
    keep_offline: bool,
    transcript_text: Option<string>,
    summary_text: Option<string>,
    individual_transcripts_json: Option<string>)

  /** The table, keyed by the primary key `local_id`. */
  type Table = map<string, CachedRecording>

  /** Every row sits under its own `local_id` and carries one of the six status names. */
  ghost predicate WellFormed(t: Table) {
    forall id :: id in t ==> t[id].local_id == id && t[id].sync_status in LocalNames
  }

  /** The row `create_draft` inserts. */
  function Draft(id: string, title: string, duration: real, now: string, path: string): (r: CachedRecording)
    ensures r.local_id == id && r.remote_job_id == None && !r.keep_offline
    ensures r.sync_status == StatusName(DraftReady) && r.local_file_path == Some(path)
    ensures r.title == title && r.duration_sec == duration && r.created_at == now
    ensures r.remote_audio_url == None && r.local_audio_path == None && r.file_hash == None
    ensures r.transcript_text == None && r.summary_text == None && r.individual_transcripts_json == None
  {
    CachedRecording(id, None, title, duration, now, "DRAFT_READY", Some(path),
                    None, None, None, false, None, None, None)
  }

  /** `UPDATE … SET sync_status` on one row; no transition is checked. */
  function WithStatus(t: Table, id: string, st: SyncStatus): (r: Table)
    ensures r.Keys == t.Keys
    ensures forall k :: k in t && k != id ==> r[k] == t[k]
    ensures id in t ==> r[id] == t[id].(sync_status := StatusName(st))
    ensures WellFormed(t) ==> WellFormed(r)
  {
    if id in t then t[id := t[id].(sync_status := StatusName(st))] else t
  }

  /** `finalize_upload`: record the job id, go straight to `PROCESSING_REMOTE`, forget the local file. */
  function Finalized(t: Table, id: string, remoteId: string): (r: Table)
    ensures r.Keys == t.Keys
    ensures forall k :: k in t && k != id ==> r[k] == t[k]
    ensures id in t ==> r[id] == t[id].(remote_job_id := Some(remoteId),
                                        sync_status := StatusName(ProcessingRemote),
                                        local_file_path := None)
    ensures WellFormed(t) ==> WellFormed(r)
  {
    if id in t then
      t[id := t[id].(remote_job_id := Some(remoteId), sync_status := "PROCESSING_REMOTE", local_file_path := None)]
    else t
  }

  /** `mark_as_synced`: `COMPLETED_SYNCED` with the result payloads and the audio URL. */
  function Synced(t: Table, id: string, transcript: string, summary: Option<string>,
                  individual: Option<string>, audioUrl: string): (r: Table)
    ensures r.Keys == t.Keys
    ensures forall k :: k in t && k != id ==> r[k] == t[k]
    ensures id in t ==> r[id] == t[id].(sync_status := StatusName(CompletedSynced),
                                        transcript_text := Some(transcript),
                                        summary_text := summary,
                                        individual_transcripts_json := individual,
                                        remote_audio_url := Some(audioUrl))
    ensures WellFormed(t) ==> WellFormed(r)
  {
    if id in t then
      t[id := t[id].(sync_status := "COMPLETED_SYNCED", transcript_text := Some(transcript),
                     summary_text := summary, individual_transcripts_json := individual,
                     remote_audio_url := Some(audioUrl))]
    else t
  }

  /** `set_local_audio_path`: pinning follows the presence of the retained copy. */
  function WithLocalAudio(t: Table, id: string, path: Option<string>): (r: Table)
    ensures r.Keys == t.Keys
    ensures forall k :: k in t && k != id ==> r[k] == t[k]
    ensures id in t ==> r[id].local_audio_path == path && (r[id].keep_offline <==> path.Some?)
    ensures id in t ==> r[id] == t[id].(local_audio_path := path, keep_offline := r[id].keep_offline)
    ensures WellFormed(t) ==> WellFormed(r)
  {
    if id in t then t[id := t[id].(local_audio_path := path, keep_offline := path.Some?)] else t
  }

  /** `delete_recording`: an absent id is not an error. */
  function Deleted(t: Table, id: string): (r: Table)
    ensures r.Keys == t.Keys - {id}
    ensures forall k :: k in r ==> r[k] == t[k]
    ensures WellFormed(t) ==> WellFormed(r)
  {
    t - {id}
  }

  /** Deleting twice is deleting once, and deleting an absent id changes nothing. */
  lemma DeleteIdempotent(t: Table, id: string)
    ensures Deleted(Deleted(t, id), id) == Deleted(t, id)
    ensures id !in t ==> Deleted(t, id) == t
  {
  }

  /** `delete_remote_recording`: drop every row carrying that job id. */
  function DeletedRemote(t: Table, remoteId: string): (r: Table)
    ensures forall k :: k in r <==> k in t && t[k].remote_job_id != Some(remoteId)
    ensures forall k :: k in r ==> r[k] == t[k]
    ensures WellFormed(t) ==> WellFormed(r)
  {
    map k | k in t && t[k].remote_job_id != Some(remoteId) :: t[k]
  }

  //---------------------------------------------------------------- remote upsert

  /** What a JSON parse of a transcript yields, as far as the ledger looks at it:
      the `"text"` member when it is a JSON string, and the serialised `"segments"` member. */
  datatype JsonFields = JsonFields(text: Option<string>, segments: Option<string>)

  /** The transcript and per-speaker JSON the upsert stores. A transcript whose text,
      after leading whitespace, starts with `{` and parses as JSON contributes its
      `"text"` and `"segments"` members; anything else is stored as given. */
  function StoredResults(transcript: Option<string>, individual: Option<string>,
                         parse: string -> Option<JsonFields>): (r: (Option<string>, Option<string>))
    ensures transcript.None? ==> r == (None, individual)
    ensures transcript.Some? && !LooksLikeJson(transcript.value) ==> r == (transcript, individual)
    ensures transcript.Some? && LooksLikeJson(transcript.value) && parse(transcript.value).None? ==>
              r == (transcript, individual)
    ensures transcript.Some? && LooksLikeJson(transcript.value) && parse(transcript.value).Some? ==>
              var f := parse(transcript.value);
              r.0 == (if f.value.text.Some? then f.value.text else transcript) &&
              r.1 == (if f.value.segments.Some? then f.value.segments else individual)
  {
    match transcript
    case None => (None, individual)
    case Some(t) =>
      if !LooksLikeJson(t) then (transcript, individual)
      else match parse(t)
        case None => (transcript, individual)
        case Some(f) =>
          (if f.text.Some? then f.text else transcript,
           if f.segments.Some? then f.segments else individual)
  }

  /** `t.trim().starts_with('{')`; only the leading side of the trim matters. */
  predicate LooksLikeJson(t: string) {
    var s := TrimStart(t);
    s != [] && s[0] == '{'
  }

  /** A JSON-looking transcript that parses without a `"text"` member keeps its own text. */
  lemma JsonWithoutTextKeepsTranscript(t: string, individual: Option<string>, parse: string -> Option<JsonFields>)
    requires LooksLikeJson(t) && parse(t).Some? && parse(t).value.text.None?
    ensures StoredResults(Some(t), individual, parse).0 == Some(t)
  {
  }

  /** The existing row refreshed by the UPDATE branch of `upsert_remote_recording`. */
  function Refreshed(row: CachedRecording, title: string, statusWord: string,
                     stored: (Option<string>, Option<string>), summary: Option<string>,
                     audioUrl: Option<string>): (r: CachedRecording)
    ensures r.local_id == row.local_id && r.remote_job_id == row.remote_job_id
    ensures r.local_file_path == row.local_file_path && r.keep_offline == row.keep_offline
    ensures r.duration_sec == row.duration_sec && r.created_at == row.created_at
    ensures r.local_audio_path == row.local_audio_path && r.file_hash == row.file_hash
    ensures r.title == title && r.sync_status == StatusName(ParseStatus(statusWord))
    ensures r.transcript_text == stored.0 && r.individual_transcripts_json == stored.1
    ensures r.summary_text == summary && r.remote_audio_url == audioUrl
  {
    row.(title := title, sync_status := StatusName(ParseStatus(statusWord)),
         transcript_text := stored.0, summary_text := summary,
         individual_transcripts_json := stored.1, remote_audio_url := audioUrl)
  }

  /** The row the INSERT branch of `upsert_remote_recording` adds. */
  function RemoteRow(id: string, remoteId: string, title: string, statusWord: string, createdAt: string,
                     stored: (Option<string>, Option<string>), summary: Option<string>,
                     audioUrl: Option<string>): (r: CachedRecording)
    ensures r.local_id == id && r.remote_job_id == Some(remoteId)
    ensures r.duration_sec == 0.0 && !r.keep_offline && r.local_file_path == None
    ensures r.sync_status == StatusName(ParseStatus(statusWord))
    ensures r.title == title && r.created_at == createdAt
    ensures r.transcript_text == stored.0 && r.individual_transcripts_json == stored.1
    ensures r.summary_text == summary && r.remote_audio_url == audioUrl
    ensures r.local_audio_path == None && r.file_hash == None
  {
    CachedRecording(id, Some(remoteId), title, 0.0, createdAt, StatusName(ParseStatus(statusWord)),
                    None, audioUrl, None, None, false, stored.0, summary, stored.1)
  }

  //---------------------------------------------------------------- listing order

  /** `rows` lists the table once per row, latest `created_at` first (ties in any order). */
  ghost predicate IsListing(t: Table, rows: seq<CachedRecording>) {
    && (forall i :: 0 <= i < |rows| ==> rows[i].local_id in t && t[rows[i].local_id] == rows[i])
    && (forall i, j :: 0 <= i < j < |rows| ==> rows[i].local_id != rows[j].local_id)
    && (forall id :: id in t ==> exists i :: 0 <= i < |rows| && rows[i].local_id == id)
    && (forall i, j :: 0 <= i < j < |rows| ==> LexLe(rows[j].created_at, rows[i].created_at))
  }

  lemma {:induction false} LatestExists(t: Table, left: set<string>)
    requires left != {} && left <= t.Keys
    ensures exists k :: k in left && forall k' :: k' in left ==> LexLe(t[k'].created_at, t[k].created_at)
    decreases left
  {
    var x :| x in left;
    if left == {x} {
      Strings.LexLeTotal(t[x].created_at, t[x].created_at);
    } else {
      LatestExists(t, left - {x});
      var m :| m in left - {x} && forall k' :: k' in left - {x} ==> LexLe(t[k'].created_at, t[m].created_at);
      Strings.LexLeTotal(t[x].created_at, t[m].created_at);
      if LexLe(t[x].created_at, t[m].created_at) {
        assert forall k' :: k' in left ==> LexLe(t[k'].created_at, t[m].created_at);
      } else {
        forall k' | k' in left ensures LexLe(t[k'].created_at, t[x].created_at) {
          if k' != x {
            Strings.LexLeTransitive(t[k'].created_at, t[m].created_at, t[x].created_at);
          } else {
            Strings.LexLeTotal(t[x].created_at, t[x].created_at);
          }
        }
      }
    }
  }

  /** The loop state of the listing: rows not in `left` are listed once each, latest
      first, and none of `left` is later than anything already listed. */
  ghost predicate ListedSoFar(t: Table, listing: seq<CachedRecording>, left: set<string>) {
    && left <= t.Keys
    && (forall i :: 0 <= i < |listing| ==>
          (listing[i].local_id in t && listing[i].local_id !in left && t[listing[i].local_id] == listing[i]))
    && (forall id :: id in t && id !in left ==> exists i :: 0 <= i < |listing| && listing[i].local_id == id)
    && (forall i, j :: 0 <= i < j < |listing| ==> listing[i].local_id != listing[j].local_id)
    && (forall i, j :: 0 <= i < j < |listing| ==> LexLe(listing[j].created_at, listing[i].created_at))
    && (forall i, k :: 0 <= i < |listing| && k in left ==> LexLe(t[k].created_at, listing[i].created_at))
  }

  lemma TakeLatest(t: Table, listing: seq<CachedRecording>, left: set<string>, k: string)
    requires WellFormed(t) && ListedSoFar(t, listing, left)
    requires k in left && forall k' :: k' in left ==> LexLe(t[k'].created_at, t[k].created_at)
    ensures ListedSoFar(t, listing + [t[k]], left - {k})
  {
    var next := listing + [t[k]];
    TakeLatestCovers(t, listing, left, k);
    forall i, j | 0 <= i < j < |next|
      ensures next[i].local_id != next[j].local_id && LexLe(next[j].created_at, next[i].created_at)
    {
      if j == |listing| {
        assert next[i] == listing[i] && next[j] == t[k];
      } else {
        assert next[i] == listing[i] && next[j] == listing[j];
      }
    }
  }

  /** The row taken is listed, the rows listed before stay listed, and what is left
      is no later than anything listed. */
  lemma TakeLatestCovers(t: Table, listing: seq<CachedRecording>, left: set<string>, k: string)
    requires WellFormed(t) && ListedSoFar(t, listing, left)
    requires k in left && forall k' :: k' in left ==> LexLe(t[k'].created_at, t[k].created_at)
    ensures var next := listing + [t[k]];
            && (forall i :: 0 <= i < |next| ==>
                  (next[i].local_id in t && next[i].local_id !in left - {k} && t[next[i].local_id] == next[i]))
            && (forall id :: id in t && id !in left - {k} ==> exists i :: 0 <= i < |next| && next[i].local_id == id)
            && (forall i, k' :: 0 <= i < |next| && k' in left - {k} ==> LexLe(t[k'].created_at, next[i].created_at))
  {
    var next := listing + [t[k]];
    forall id | id in t && id !in left - {k}
      ensures exists i :: 0 <= i < |next| && next[i].local_id == id
    {
      if id == k {
        assert next[|listing|].local_id == id;
      } else {
        var i :| 0 <= i < |listing| && listing[i].local_id == id;
        assert next[i].local_id == id;
      }
    }
    forall i | 0 <= i < |next|
      ensures next[i].local_id in t && next[i].local_id !in left - {k} && t[next[i].local_id] == next[i]
    {
      if i < |listing| {
        assert next[i] == listing[i];
      }
    }
    forall i, k' | 0 <= i < |next| && k' in left - {k}
      ensures LexLe(t[k'].created_at, next[i].created_at)
    {
      if i < |listing| {
        assert next[i] == listing[i];
      }
    }
  }

  //---------------------------------------------------------------- the service

  /** `DatabaseService` over an in-memory `cached_recordings` table. */
  class Database {
    var rows: Table

    ghost predicate Valid()
      reads this
    {
      WellFormed(rows)
    }

    constructor ()
      ensures Valid() && rows == map[]
    {
      rows := map[];
    }

    /** `create_draft`; `freshId` and `now` stand for the generated UUID and the clock.
        An id already in the table violates the primary key. */
    method CreateDraft(title: string, duration: real, path: string, freshId: string, now: string)
      returns (r: Result<CachedRecording, AppError>)
      requires Valid()
      modifies this
      ensures Valid()
      ensures freshId in old(rows) ==> rows == old(rows) && r.Err? && r.error.Database?
      ensures freshId !in old(rows) ==>
                rows == old(rows)[freshId := Draft(freshId, title, duration, now, path)] &&
                r == Ok(rows[freshId])
    {
      if freshId in rows {
        return Err(Database("UNIQUE constraint failed: cached_recordings.local_id"));
      }
      rows := rows[freshId := Draft(freshId, title, duration, now, path)];
      r := GetRecording(freshId);
    }

    /** `get_recording`: a missing row is the query's "no rows" database error. */
    method GetRecording(id: string) returns (r: Result<CachedRecording, AppError>)
      ensures id in rows ==> r == Ok(rows[id])
      ensures id !in rows ==> r.Err? && r.error.Database?
    {
      if id in rows {
        r := Ok(rows[id]);
      } else {
        r := Err(Database("no rows returned by a query that expected to return at least one row"));
      }
    }

    /** `get_all_recordings`: every row once, `ORDER BY created_at DESC`, built by taking
        the latest remaining row each time. */
    method GetAllRecordings() returns (listing: seq<CachedRecording>)
      requires Valid()
      ensures IsListing(rows, listing)
    {
      listing := [];
      var left := rows.Keys;
      while left != {}
        invariant ListedSoFar(rows, listing, left)
        decreases left
      {
        LatestExists(rows, left);
        var k :| k in left && forall k' :: k' in left ==> LexLe(rows[k'].created_at, rows[k].created_at);
        TakeLatest(rows, listing, left, k);
        listing := listing + [rows[k]];
        left := left - {k};
      }
    }

    /** The `SELECT local_id … WHERE remote_job_id = ?` lookup; which of several matches
        the query returns first is not specified. */
    method FindByRemoteId(remoteId: string) returns (found: Option<string>)
      ensures found.Some? ==> found.value in rows && rows[found.value].remote_job_id == Some(remoteId)
      ensures found.None? <==> forall k :: k in rows ==> rows[k].remote_job_id != Some(remoteId)
    {
      if exists k :: k in rows && rows[k].remote_job_id == Some(remoteId) {
        var k :| k in rows && rows[k].remote_job_id == Some(remoteId);
        found := Some(k);
      } else {
        found := None;
      }
    }

    method UpdateSyncStatus(id: string, st: SyncStatus)
      requires Valid()
      modifies this
      ensures Valid() && rows == WithStatus(old(rows), id, st)
    {
      rows := WithStatus(rows, id, st);
    }

    method FinalizeUpload(id: string, remoteId: string)
      requires Valid()
      modifies this
      ensures Valid() && rows == Finalized(old(rows), id, remoteId)
    {
      rows := Finalized(rows, id, remoteId);
    }

    method MarkAsSynced(id: string, transcript: string, summary: Option<string>,
                        individual: Option<string>, audioUrl: string)
      requires Valid()
      modifies this
      ensures Valid() && rows == Synced(old(rows), id, transcript, summary, individual, audioUrl)
    {
      rows := Synced(rows, id, transcript, summary, individual, audioUrl);
    }

    method SetLocalAudioPath(id: string, path: Option<string>)
      requires Valid()
      modifies this
      ensures Valid() && rows == WithLocalAudio(old(rows), id, path)
    {
      rows := WithLocalAudio(rows, id, path);
    }

    method DeleteRecording(id: string)
      requires Valid()
      modifies this
      ensures Valid() && rows == Deleted(old(rows), id)
    {
      rows := Deleted(rows, id);
    }

    method DeleteRemoteRecording(remoteId: string)
      requires Valid()
      modifies this
      ensures Valid() && rows == DeletedRemote(old(rows), remoteId)
    {
      rows := DeletedRemote(rows, remoteId);
    }

    /** `upsert_remote_recording`: refresh the row that carries `remoteId`, or insert a new
        one under `freshId` (the generated UUID). `parse` stands for the JSON parser. */
    method UpsertRemoteRecording(remoteId: string, title: string, statusWord: string, createdAt: string,
                                 transcript: Option<string>, summary: Option<string>,
                                 individual: Option<string>, audioUrl: Option<string>,
                                 parse: string -> Option<JsonFields>, freshId: string)
      returns (r: Result<CachedRecording, AppError>)
      requires Valid()
      modifies this
      ensures Valid()
      ensures (exists k :: k in old(rows) && old(rows)[k].remote_job_id == Some(remoteId)) ==>
                exists k :: k in old(rows) && old(rows)[k].remote_job_id == Some(remoteId) &&
                  rows == old(rows)[k := Refreshed(old(rows)[k], title, statusWord,
                                                   StoredResults(transcript, individual, parse), summary, audioUrl)] &&
                  r == Ok(rows[k])
      ensures (forall k :: k in old(rows) ==> old(rows)[k].remote_job_id != Some(remoteId)) ==>
                if freshId in old(rows) then rows == old(rows) && r.Err? && r.error.Database?
                else rows == old(rows)[freshId := RemoteRow(freshId, remoteId, title, statusWord, createdAt,
                                                            StoredResults(transcript, individual, parse),
                                                            summary, audioUrl)] &&
                     r == Ok(rows[freshId])
    {
      var existing := FindByRemoteId(remoteId);
      var stored := StoredResults(transcript, individual, parse);
      match existing
      case Some(k) =>
        rows := rows[k := Refreshed(rows[k], title, statusWord, stored, summary, audioUrl)];
        r := GetRecording(k);
      case None =>
        if freshId in rows {
          return Err(Database("UNIQUE constraint failed: cached_recordings.local_id"));
        }
        rows := rows[freshId := RemoteRow(freshId, remoteId, title, statusWord, createdAt, stored, summary, audioUrl)];
        r := GetRecording(freshId);
    }
  }
}
