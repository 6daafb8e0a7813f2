/**
 * `StorageService`: the settings file, the JSON recording ledger written with a
 * tmp-then-rename step, and the ledger rewrite of `migrate_recordings`.
 */
module Storage {
  import opened Wrappers
  import opened Errors
  import opened Paths
  import Files

  datatype Settings = Settings(
    scriberr_url: string,
    api_key: string,
    output_path: string,
    last_sync_timestamp: Option<string>)

  /** A ledger entry; `retry_count` is a `u32` in the source, `duration_sec` an `f64`. */
  datatype LedgerEntry = LedgerEntry(
    local_id: string,
    remote_id: Option<string>,
    file_path: string,
    upload_status: string,
    created_at: string,
    duration_sec: real,
    retry_count: nat)

  /** The value of `HOME`, or `.` when it is not set. */
  function Home(home: Option<string>): string {
    home.GetOr(".")
  }

  function ConfigDir(home: Option<string>): string {
    Join(Join(Home(home), ".config"), "scriberr-companion")
  }

  function LedgerPath(home: Option<string>): string {
    Join(ConfigDir(home), "ledger.json")
  }

  function LedgerTmpPath(home: Option<string>): string {
    Join(ConfigDir(home), "ledger.json.tmp")
  }

  function SettingsPath(home: Option<string>): string {
    Join(ConfigDir(home), "settings.json")
  }

  /** The ledger, its temporary copy and the settings file are three different files. */
  lemma ConfigFilesDistinct(home: Option<string>)
    ensures LedgerPath(home) != LedgerTmpPath(home)
    ensures SettingsPath(home) != LedgerPath(home) && SettingsPath(home) != LedgerTmpPath(home)
  {
    var d := ConfigDir(home);
    assert |LedgerTmpPath(home)| == |LedgerPath(home)| + 4;
    assert |SettingsPath(home)| == |LedgerPath(home)| + 2;
  }

  /** The folder recordings go to unless settings say otherwise: the caller's
      path, else `Documents/ScriberrRecordings` under `HOME`. */
  function DefaultOutput(defaultPath: Option<string>, home: Option<string>): (r: string)
    ensures defaultPath.Some? ==> r == defaultPath.value
    ensures defaultPath.None? ==>
              Components(r) == Components(Home(home)) + [Normal("Documents"), Normal("ScriberrRecordings")]
  {
    match defaultPath
    case Some(p) => p
    case None =>
      RecordingsBelowHome(Home(home));
      Join(Join(Home(home), "Documents"), "ScriberrRecordings")
  }

  lemma RecordingsBelowHome(h: string)
    ensures Components(Join(Join(h, "Documents"), "ScriberrRecordings")) ==
            Components(h) + [Normal("Documents"), Normal("ScriberrRecordings")]
  {
    NamedChild(h, "Documents");
    NamedChild(Join(h, "Documents"), "ScriberrRecordings");
  }

  /** Joining a plain file or folder name adds exactly that one component. */
  lemma NamedChild(base: string, name: string)
    requires name != [] && name[0] != '/' && '/' !in name && name != "." && name != ".."
    ensures Components(Join(base, name)) == Components(base) + [Normal(name)]
  {
    SplitNoSlash(name);
    JoinComponents(base, name);
    assert Body([name]) == Piece(name) + Body([]);
  }

  /** `load_settings`: `decode` stands for the JSON parser of the settings file. */
  function LoadSettings(files: map<string, string>, home: Option<string>, defaultPath: Option<string>,
                        decode: string -> Result<Settings, string>): (r: Result<Settings, AppError>)
    ensures SettingsPath(home) !in files ==> r == Ok(Settings("", "", DefaultOutput(defaultPath, home), None))
    ensures SettingsPath(home) in files && decode(files[SettingsPath(home)]).Err? ==>
              r == Err(Serialization(decode(files[SettingsPath(home)]).error))
    ensures SettingsPath(home) in files && decode(files[SettingsPath(home)]).Ok? ==>
              var stored := decode(files[SettingsPath(home)]).value;
              r.Ok? && r.value.(output_path := stored.output_path) == stored &&
              r.value.output_path == (if stored.output_path == "" then DefaultOutput(defaultPath, home)
                                      else stored.output_path)
    ensures r.Ok? && DefaultOutput(defaultPath, home) != "" ==> r.value.output_path != ""
  {
    var path := SettingsPath(home);
    var fallback := DefaultOutput(defaultPath, home);
    if path !in files then Ok(Settings("", "", fallback, None))
    else match decode(files[path])
      case Err(msg) => Err(FromJsonError(msg))
      case Ok(s) => Ok(if s.output_path == "" then s.(output_path := fallback) else s)
  }

  /** `save_settings`: the encoded settings replace the settings file. */
  function SavedSettings(files: map<string, string>, home: Option<string>, s: Settings,
                         encode: Settings -> string): (r: map<string, string>)
    ensures SettingsPath(home) in r && r[SettingsPath(home)] == encode(s)
    ensures r.Keys == files.Keys + {SettingsPath(home)}
    ensures forall p :: p in files && p != SettingsPath(home) ==> r[p] == files[p]
  {
    files[SettingsPath(home) := encode(s)]
  }

  /** Loading what was saved gives it back once the output path is set. */
  lemma LoadAfterSaveSettings(files: map<string, string>, home: Option<string>, defaultPath: Option<string>,
                              s: Settings, encode: Settings -> string, decode: string -> Result<Settings, string>)
    requires decode(encode(s)) == Ok(s) && s.output_path != ""
    ensures LoadSettings(SavedSettings(files, home, s, encode), home, defaultPath, decode) == Ok(s)
  {
  }

  //---------------------------------------------------------------- the ledger file

  /** The first step of `load_ledger`: a leftover temporary file replaces the ledger. */
  function PromoteTmp(files: map<string, string>, home: Option<string>): (r: map<string, string>)
    ensures LedgerTmpPath(home) !in r
    ensures LedgerTmpPath(home) in files ==> LedgerPath(home) in r && r[LedgerPath(home)] == files[LedgerTmpPath(home)]
    ensures LedgerTmpPath(home) !in files ==> r == files
    ensures forall p :: p in files && p != LedgerPath(home) && p != LedgerTmpPath(home) ==> p in r && r[p] == files[p]
  {
    var tmp := LedgerTmpPath(home);
    ConfigFilesDistinct(home);
    if tmp in files then (files - {tmp})[LedgerPath(home) := files[tmp]] else files
  }

  /** `load_ledger`: the files afterwards and the entries read; `decode` is the JSON parser. */
  function LoadedLedger(files: map<string, string>, home: Option<string>,
                        decode: string -> Result<seq<LedgerEntry>, string>)
    : (r: (map<string, string>, Result<seq<LedgerEntry>, AppError>))
    ensures r.0 == PromoteTmp(files, home)
    ensures LedgerPath(home) !in r.0 ==> r.1 == Ok([])
    ensures LedgerPath(home) in r.0 ==>
              r.1 == match decode(r.0[LedgerPath(home)])
                     case Ok(es) => Ok(es)
                     case Err(msg) => Err(Serialization(msg))
  {
    var now := PromoteTmp(files, home);
    var path := LedgerPath(home);
    if path !in now then (now, Ok([]))
    else match decode(now[path])
      case Ok(es) => (now, Ok(es))
      case Err(msg) => (now, Err(FromJsonError(msg)))
  }

  /** `save_ledger`: write the temporary file, then rename it over the ledger. */
  function SavedLedger(files: map<string, string>, home: Option<string>, json: string): (r: map<string, string>)
    ensures LedgerTmpPath(home) !in r
    ensures LedgerPath(home) in r && r[LedgerPath(home)] == json
    ensures forall p :: p in files && p != LedgerPath(home) && p != LedgerTmpPath(home) ==> p in r && r[p] == files[p]
    ensures forall p :: p in r ==> p in files || p == LedgerPath(home)
  {
    var tmp := LedgerTmpPath(home);
    ConfigFilesDistinct(home);
    (files[tmp := json] - {tmp})[LedgerPath(home) := json]
  }

  /** Loading after a save returns the saved entries and leaves the files as saved. */
  lemma LoadAfterSaveLedger(files: map<string, string>, home: Option<string>, entries: seq<LedgerEntry>,
                            encode: seq<LedgerEntry> -> string, decode: string -> Result<seq<LedgerEntry>, string>)
    requires decode(encode(entries)) == Ok(entries)
    ensures var saved := SavedLedger(files, home, encode(entries));
            LoadedLedger(saved, home, decode) == (saved, Ok(entries))
  {
  }

  /** A leftover temporary file is what gets read when it exists. */
  lemma LeftoverTmpIsRead(files: map<string, string>, home: Option<string>,
                          decode: string -> Result<seq<LedgerEntry>, string>)
    requires LedgerTmpPath(home) in files
    ensures LoadedLedger(files, home, decode).1 ==
            match decode(files[LedgerTmpPath(home)])
            case Ok(es) => Ok(es)
            case Err(msg) => Err(Serialization(msg))
  {
  }

  method LoadLedger(fs: Files.FileStore, home: Option<string>, decode: string -> Result<seq<LedgerEntry>, string>)
    returns (r: Result<seq<LedgerEntry>, AppError>)
    modifies fs
    ensures (fs.files, r) == LoadedLedger(old(fs.files), home, decode)
  {
    var path, tmp := LedgerPath(home), LedgerTmpPath(home);
    ConfigFilesDistinct(home);
    var hasTmp := fs.Exists(tmp);
    if hasTmp {
      var _ := fs.Rename(tmp, path);
    }
    var content := fs.Read(path);
    match content
    case None =>
      return Ok([]);
    case Some(text) =>
      match decode(text)
      case Ok(es) =>
        return Ok(es);
      case Err(msg) =>
        return Err(FromJsonError(msg));
  }

  method SaveLedger(fs: Files.FileStore, home: Option<string>, entries: seq<LedgerEntry>,
                    encode: seq<LedgerEntry> -> string)
    modifies fs
    ensures fs.files == SavedLedger(old(fs.files), home, encode(entries))
  {
    var path, tmp := LedgerPath(home), LedgerTmpPath(home);
    var json := encode(entries);
    fs.Write(tmp, json);
    var _ := fs.Rename(tmp, path);
  }

  //---------------------------------------------------------------- migration

  /** One entry after the rewrite: a path below `oldBase` is moved below `newBase`
      (`MigratedPath` says where it lands). */
  function Migrated(e: LedgerEntry, oldBase: string, newBase: string): (r: LedgerEntry)
    ensures r.(file_path := e.file_path) == e
    ensures !ComponentsStartWith(e.file_path, oldBase) ==> r == e
  {
    if ComponentsStartWith(e.file_path, oldBase) then
      e.(file_path := Join(newBase, StripPrefix(e.file_path, oldBase)))
    else e
  }

  /** A moved entry's path is `newBase` followed by what lay below `oldBase`. */
  lemma MigratedPath(e: LedgerEntry, oldBase: string, newBase: string)
    requires ComponentsStartWith(e.file_path, oldBase) && Components(oldBase) != []
    ensures Components(Migrated(e, oldBase, newBase).file_path) ==
            Components(newBase) + Components(e.file_path)[|Components(oldBase)|..]
  {
    ReplacePrefixComponents(e.file_path, oldBase, newBase);
  }

  /** Whether some element of `s` passes `test`, looking from the back. */
  predicate AnyPasses<T>(s: seq<T>, test: T -> bool)
    decreases |s|
  {
    |s| > 0 && (AnyPasses(s[..|s| - 1], test) || test(s[|s| - 1]))
  }

  lemma {:induction false} AnyPassesMeans<T>(s: seq<T>, test: T -> bool)
    ensures AnyPasses(s, test) <==> exists i :: 0 <= i < |s| && test(s[i])
    decreases |s|
  {
    if |s| > 0 {
      var front := s[..|s| - 1];
      AnyPassesMeans(front, test);
      if AnyPasses(front, test) {
        var i :| 0 <= i < |front| && test(front[i]);
        assert s[i] == front[i];
      } else if !test(s[|s| - 1]) {
        forall i | 0 <= i < |s| ensures !test(s[i]) {
          if i < |front| {
            assert s[i] == front[i];
          }
        }
      }
    }
  }

  /** The test `migrate_recordings` applies to each entry. */
  function BelowTest(oldBase: string): LedgerEntry -> bool {
    (e: LedgerEntry) => ComponentsStartWith(e.file_path, oldBase)
  }

  /** Whether some entry of `entries` lies below `oldBase`. */
  predicate AnyBelow(entries: seq<LedgerEntry>, oldBase: string) {
    AnyPasses(entries, BelowTest(oldBase))
  }

  lemma AnyBelowMeans(entries: seq<LedgerEntry>, oldBase: string)
    ensures AnyBelow(entries, oldBase) <==>
            exists i :: 0 <= i < |entries| && ComponentsStartWith(entries[i].file_path, oldBase)
  {
    AnyPassesMeans(entries, BelowTest(oldBase));
  }

  /** The loop of `migrate_recordings` over the loaded entries; `changed` records whether
      any entry matched. */
  method RewriteEntries(entries: seq<LedgerEntry>, oldBase: string, newBase: string)
    returns (out: seq<LedgerEntry>, changed: bool)
    ensures |out| == |entries|
    ensures forall i :: 0 <= i < |out| ==> out[i] == Migrated(entries[i], oldBase, newBase)
    ensures changed == AnyBelow(entries, oldBase)
  {
    out := entries;
    changed := false;
    var i := 0;
    while i < |out|
      invariant 0 <= i <= |out| == |entries|
      invariant forall j :: 0 <= j < i ==> out[j] == Migrated(entries[j], oldBase, newBase)
      invariant forall j :: i <= j < |out| ==> out[j] == entries[j]
      invariant changed == AnyBelow(entries[..i], oldBase)
    {
      var entry := out[i];
      if ComponentsStartWith(entry.file_path, oldBase) {
        var path := Join(newBase, StripPrefix(entry.file_path, oldBase));
        out := out[i := entry.(file_path := path)];
        changed := true;
      }
      assert entries[..i + 1][..i] == entries[..i];
      i := i + 1;
    }
    assert entries[..i] == entries;
  }

  /** The ledger half of `migrate_recordings`: load (an unreadable ledger is skipped),
      rewrite, and save only when some entry matched. */
  method MigrateLedger(fs: Files.FileStore, home: Option<string>, oldBase: string, newBase: string,
                       decode: string -> Result<seq<LedgerEntry>, string>, encode: seq<LedgerEntry> -> string)
    modifies fs
    ensures var (loadedFiles, loaded) := LoadedLedger(old(fs.files), home, decode);
            if loaded.Ok? && AnyBelow(loaded.value, oldBase)
            then fs.files == SavedLedger(loadedFiles, home,
                                         encode(seq(|loaded.value|, i requires 0 <= i < |loaded.value| =>
                                                      Migrated(loaded.value[i], oldBase, newBase))))
            else fs.files == loadedFiles
  {
    var loaded := LoadLedger(fs, home, decode);
    if loaded.Ok? {
      var out, changed := RewriteEntries(loaded.value, oldBase, newBase);
      if changed {
        assert out == seq(|loaded.value|, i requires 0 <= i < |loaded.value| =>
                            Migrated(loaded.value[i], oldBase, newBase));
        SaveLedger(fs, home, out, encode);
      }
    }
  }
}
