/**
 * The Tauri command layer: `AppState` and the recording-session transitions of
 * `toggle_recording`, `start_recording_command`, `stop_recording_command`, the pause
 * commands and `delete_recording_command`.
 */
module App {
  import opened Wrappers
  import opened Strings
  import opened Paths
  import Recorder
  import Files

  /** Append `.wav` unless the name already ends with it. */
  function WithWavExtension(name: string): (r: string)
    ensures EndsWith(r, ".wav")
    ensures EndsWith(name, ".wav") ==> r == name
    ensures !EndsWith(name, ".wav") ==> r == name + ".wav"
  {
    if EndsWith(name, ".wav") then name else name + ".wav"
  }

  /** Normalising twice is normalising once. */
  lemma WithWavExtensionIdempotent(name: string)
    ensures WithWavExtension(WithWavExtension(name)) == WithWavExtension(name)
  {
  }

  /** The file name a start uses; `timestamp` is the local time as `%Y-%m-%d_%H-%M-%S`. */
  function RecordingName(filename: Option<string>, timestamp: string): (r: string)
    ensures EndsWith(r, ".wav")
    ensures filename.None? ==> r == "recording_" + timestamp + ".wav"
    ensures filename.Some? ==> StartsWith(r, filename.value)
    ensures filename.Some? && EndsWith(filename.value, ".wav") ==> r == filename.value
    ensures filename.Some? && !EndsWith(filename.value, ".wav") ==> r == filename.value + ".wav"
  {
    var name := match filename case Some(n) => n case None => "recording_" + timestamp + ".wav";
    assert filename.None? ==> EndsWith(name, ".wav") by {
      if filename.None? {
        assert name[|name| - 4..] == ".wav";
      }
    }
    assert filename.Some? ==> StartsWith(WithWavExtension(name), filename.value) by {
      if filename.Some? && !EndsWith(name, ".wav") {
        assert (name + ".wav")[..|name|] == name;
      }
    }
    WithWavExtension(name)
  }

  datatype RecordingResult = RecordingResult(file_path: string, folder_path: string)

  class AppState {
    const recorder: Recorder.AudioRecorder
    var isRecording: bool
    var outputFolder: string
    var recordingAppPid: Option<int>
    var currentRecordingPath: Option<string>

    /** A pid is held exactly while recording, and a recording has a path. */
    ghost predicate Valid()
      reads this
    {
      (isRecording <==> recordingAppPid.Some?) && (isRecording ==> currentRecordingPath.Some?)
    }

    /** The state `run` manages: idle, with `outputFolder` as the folder recordings go to. */
    constructor (outputFolder: string)
      ensures Valid() && fresh(recorder)
      ensures !isRecording && recordingAppPid == None && currentRecordingPath == None
      ensures this.outputFolder == outputFolder
      ensures !recorder.paused && !recorder.writerOpen && recorder.mixer == None
      ensures !recorder.capturing && !recorder.micStreaming
    {
      recorder := new Recorder.AudioRecorder();
      isRecording := false;
      this.outputFolder := outputFolder;
      recordingAppPid := None;
      currentRecordingPath := None;
    }

    /** `toggle_recording`: stop when recording (a stop failure is only logged), start
        otherwise. `logged` is what is reported on stderr; `env` is what the platform does
        for the stop or the start. */
    method ToggleRecording(pid: int, filename: Option<string>, micDevice: Option<string>, timestamp: string,
                           env: Recorder.StartEnvironment)
      returns (logged: Result<(), string>)
      requires Valid()
      modifies this, recorder
      ensures Valid() && outputFolder == old(outputFolder)
      ensures old(isRecording) ==>
                !isRecording && recordingAppPid == None && currentRecordingPath == old(currentRecordingPath) &&
                recorder.Stopped(old(recorder.paused), old(recorder.writerOpen), old(recorder.mixer), env.finalizeError)
      ensures old(isRecording) ==>
                logged == if old(recorder.writerOpen) && env.finalizeError.Some?
                          then Err("Failed to finalize WAV: " + env.finalizeError.value) else Ok(())
      ensures !old(isRecording) ==>
                logged == Recorder.StartResult(old(recorder.writerOpen), pid, micDevice, env) &&
                recorder.Started(old(recorder.paused), old(recorder.writerOpen), old(recorder.mixer), pid, micDevice, env)
      ensures !old(isRecording) && logged.Ok? ==>
                isRecording && recordingAppPid == Some(pid) &&
                currentRecordingPath == Some(Join(outputFolder, RecordingName(filename, timestamp)))
      ensures !old(isRecording) && logged.Err? ==>
                !isRecording && recordingAppPid == old(recordingAppPid) &&
                currentRecordingPath == old(currentRecordingPath)
    {
      if isRecording {
        logged := recorder.StopRecording(env.finalizeError);
        isRecording := false;
        recordingAppPid := None;
      } else {
        var folder := outputFolder;
        var name := RecordingName(filename, timestamp);
        var path := Join(folder, name);
        logged := recorder.StartRecording(pid, micDevice, env);
        if logged.Ok? {
          isRecording := true;
          recordingAppPid := Some(pid);
          currentRecordingPath := Some(path);
        }
      }
    }

    /** `start_recording_command`: toggles, and reports success whatever happened. */
    method StartRecordingCommand(pid: int, filename: Option<string>, micDevice: Option<string>, timestamp: string,
                                 env: Recorder.StartEnvironment)
      returns (r: Result<(), string>)
      requires Valid()
      modifies this, recorder
      ensures Valid() && r == Ok(()) && outputFolder == old(outputFolder)
      ensures old(isRecording) ==>
                !isRecording && recordingAppPid == None && currentRecordingPath == old(currentRecordingPath) &&
                recorder.Stopped(old(recorder.paused), old(recorder.writerOpen), old(recorder.mixer), env.finalizeError)
      ensures !old(isRecording) ==>
                isRecording == Recorder.StartResult(old(recorder.writerOpen), pid, micDevice, env).Ok? &&
                recorder.Started(old(recorder.paused), old(recorder.writerOpen), old(recorder.mixer), pid, micDevice, env)
      ensures !old(isRecording) && isRecording ==>
                recordingAppPid == Some(pid) &&
                currentRecordingPath == Some(Join(outputFolder, RecordingName(filename, timestamp)))
      ensures !old(isRecording) && !isRecording ==>
                recordingAppPid == old(recordingAppPid) && currentRecordingPath == old(currentRecordingPath)
    {
      var _ := ToggleRecording(pid, filename, micDevice, timestamp, env);
      r := Ok(());
    }

    /** `stop_recording_command`: `finalizeError` is what finalising the WAV file reports. */
    method StopRecordingCommand(finalizeError: Option<string>) returns (r: Result<RecordingResult, string>)
      requires Valid()
      modifies this, recorder
      ensures Valid() && outputFolder == old(outputFolder) && currentRecordingPath == old(currentRecordingPath)
      ensures !old(isRecording) ==>
                r == Err("Not recording") && isRecording == old(isRecording) &&
                recordingAppPid == old(recordingAppPid) && unchanged(recorder)
      ensures old(isRecording) ==>
                recorder.Stopped(old(recorder.paused), old(recorder.writerOpen), old(recorder.mixer), finalizeError)
      ensures old(isRecording) && old(recorder.writerOpen) && finalizeError.Some? ==>
                r == Err("Failed to finalize WAV: " + finalizeError.value) &&
                isRecording && recordingAppPid == old(recordingAppPid)
      ensures old(isRecording) && !(old(recorder.writerOpen) && finalizeError.Some?) ==>
                r == Ok(RecordingResult(currentRecordingPath.GetOr(""), outputFolder)) &&
                !isRecording && recordingAppPid == None
    {
      if isRecording {
        var stopped := recorder.StopRecording(finalizeError);
        if stopped.Err? {
          return Err(stopped.error);
        }
        isRecording := false;
        recordingAppPid := None;
        var folder := outputFolder;
        var file := currentRecordingPath.GetOr("");
        return Ok(RecordingResult(file, folder));
      }
      r := Err("Not recording");
    }

    method PauseRecordingCommand() returns (r: Result<(), string>)
      modifies recorder
      ensures r == Ok(()) && recorder.paused
      ensures recorder.writerOpen == old(recorder.writerOpen) && recorder.mixer == old(recorder.mixer)
      ensures recorder.capturing == old(recorder.capturing) && recorder.micStreaming == old(recorder.micStreaming)
    {
      recorder.PauseRecording();
      r := Ok(());
    }

    method ResumeRecordingCommand() returns (r: Result<(), string>)
      modifies recorder
      ensures r == Ok(()) && !recorder.paused
      ensures recorder.writerOpen == old(recorder.writerOpen) && recorder.mixer == old(recorder.mixer)
      ensures recorder.capturing == old(recorder.capturing) && recorder.micStreaming == old(recorder.micStreaming)
    {
      recorder.ResumeRecording();
      r := Ok(());
    }
  }

  /** `delete_recording_command`: remove the file if it is there; a missing file is fine. */
  method DeleteRecordingCommand(fs: Files.FileStore, path: string) returns (r: Result<(), string>)
    modifies fs
    ensures r == Ok(()) && fs.files == old(fs.files) - {path}
  {
    var present := fs.Exists(path);
    if present {
      var _ := fs.Remove(path);
    }
    r := Ok(());
  }
}
