/**
 * `AudioRecorder`: the session flags `start_recording` / `stop_recording` and the
 * pause calls leave behind, and the channel-layout conversion the system-audio
 * callback applies before pushing samples to the mixer. Devices, capture streams,
 * the WAV writer and the mixer are reduced to whether they are present; what the
 * environment does (device lookup, window lookup, capture start, WAV finalisation)
 * arrives as inputs.
 */
module Recorder {
  import opened Wrappers

  /** Which inputs the mixer takes. */
  datatype Sources = Sources(system: bool, mic: bool)

  /** The enable rules of `start_recording`: system audio unless the pid is -1, the
      microphone when a device name other than `None` is given. */
  function EnabledSources(pid: int, micDevice: Option<string>): (r: Sources)
    ensures r.system <==> pid != -1
    ensures r.mic <==> micDevice.Some? && micDevice.value != "None"
  {
    Sources(pid != -1, match micDevice case Some(name) => name != "None" case None => false)
  }

  /** What the platform does while a recording starts. */
  datatype StartEnvironment = StartEnvironment(
    finalizeError: Option<string>,   // finalising the previous WAV file, in the initial stop
    writerError: Option<string>,     // creating the WAV writer
    deviceListError: Option<string>, // listing input devices (looked up unless the name is `Default`)
    micFound: bool,                  // the named (or default) input device exists
    micPlays: bool,                  // its input stream builds and plays
    windowFound: bool,               // a window of the target pid exists
    captureError: Option<string>)    // starting the ScreenCaptureKit capture

  /** The initial `stop_recording` fails when an open writer cannot be finalised. */
  predicate StopFails(writerOpen: bool, env: StartEnvironment) {
    writerOpen && env.finalizeError.Some?
  }

  /** What `start_recording` returns, in the order its steps can fail. */
  function StartResult(writerOpen: bool, pid: int, micDevice: Option<string>, env: StartEnvironment)
    : (r: Result<(), string>)
    ensures r.Ok? <==>
              && !StopFails(writerOpen, env) && env.writerError.None?
              && !(EnabledSources(pid, micDevice).mic && micDevice.value != "Default" && env.deviceListError.Some?)
              && (pid != -1 ==> env.windowFound && env.captureError.None?)
    ensures pid == -1 && (micDevice.None? || micDevice.value == "None") ==>
              r == if StopFails(writerOpen, env) then Err("Failed to finalize WAV: " + env.finalizeError.value)
                   else if env.writerError.Some? then Err("Failed to create WAV writer: " + env.writerError.value)
                   else Ok(())
  {
    if StopFails(writerOpen, env) then Err("Failed to finalize WAV: " + env.finalizeError.value)
    else if env.writerError.Some? then Err("Failed to create WAV writer: " + env.writerError.value)
    else StreamsResult(pid, micDevice, env)
  }

  /** The steps of `start_recording` after the writer and the mixer exist. */
  function StreamsResult(pid: int, micDevice: Option<string>, env: StartEnvironment): Result<(), string> {
    var sources := EnabledSources(pid, micDevice);
    if sources.mic && micDevice.value != "Default" && env.deviceListError.Some? then Err(env.deviceListError.value)
    else if sources.system && !env.windowFound then Err("No window found for target app")
    else if sources.system && env.captureError.Some? then Err("Failed to start capture: " + env.captureError.value)
    else Ok(())
  }

  class AudioRecorder {
    var paused: bool
    /** `writer` holds an open WAV writer. */
    var writerOpen: bool
    /** `mixer` is set, with the inputs it was created for. */
    var mixer: Option<Sources>
    /** `stream` (system capture) is set. */
    var capturing: bool
    /** `mic_stream` is set. */
    var micStreaming: bool

    constructor ()
      ensures !paused && !writerOpen && mixer == None && !capturing && !micStreaming
    {
      paused, writerOpen, mixer, capturing, micStreaming := false, false, None, false, false;
    }

    method PauseRecording()
      modifies this
      ensures paused
      ensures writerOpen == old(writerOpen) && mixer == old(mixer)
      ensures capturing == old(capturing) && micStreaming == old(micStreaming)
    {
      paused := true;
    }

    method ResumeRecording()
      modifies this
      ensures !paused
      ensures writerOpen == old(writerOpen) && mixer == old(mixer)
      ensures capturing == old(capturing) && micStreaming == old(micStreaming)
    {
      paused := false;
    }

    /** The state `stop_recording` leaves from one with `paused0`, `writerOpen0` and `mixer0`:
        no streams and no writer, the pause flag kept, and the mixer dropped unless
        finalising the writer failed. */
    ghost predicate Stopped(paused0: bool, writerOpen0: bool, mixer0: Option<Sources>, finalizeError: Option<string>)
      reads this
    {
      && !capturing && !micStreaming && !writerOpen && paused == paused0
      && mixer == (if writerOpen0 && finalizeError.Some? then mixer0 else None)
    }

    /** The state `start_recording` leaves from one with `paused0`, `writerOpen0` and
        `mixer0`, step by step as the start gets through the stop, the writer, the device
        listing, the microphone and the system capture. */
    ghost predicate Started(paused0: bool, writerOpen0: bool, mixer0: Option<Sources>, pid: int,
                            micDevice: Option<string>, env: StartEnvironment)
      reads this
    {
      var sources := EnabledSources(pid, micDevice);
      var listFails := sources.mic && micDevice.value != "Default" && env.deviceListError.Some?;
      && (StopFails(writerOpen0, env) ==>
            paused == paused0 && !writerOpen && mixer == mixer0 && !capturing && !micStreaming)
      && (!StopFails(writerOpen0, env) ==> !paused)
      && (!StopFails(writerOpen0, env) && env.writerError.Some? ==>
            !writerOpen && mixer == None && !capturing && !micStreaming)
      && (!StopFails(writerOpen0, env) && env.writerError.None? ==>
            writerOpen && mixer == Some(sources) &&
            micStreaming == (sources.mic && !listFails && env.micFound && env.micPlays) &&
            capturing == (sources.system && !listFails && env.windowFound && env.captureError.None?))
    }

    /** `stop_recording`: the streams are dropped and the writer taken before it is
        finalised, so a finalisation failure leaves only the mixer behind. */
    method StopRecording(finalizeError: Option<string>) returns (r: Result<(), string>)
      modifies this
      ensures Stopped(old(paused), old(writerOpen), old(mixer), finalizeError)
      ensures old(writerOpen) && finalizeError.Some? ==> r == Err("Failed to finalize WAV: " + finalizeError.value)
      ensures !(old(writerOpen) && finalizeError.Some?) ==> r == Ok(())
    {
      micStreaming := false;
      capturing := false;
      if writerOpen {
        writerOpen := false;
        if finalizeError.Some? {
          return Err("Failed to finalize WAV: " + finalizeError.value);
        }
      }
      mixer := None;
      r := Ok(());
    }

    /** `start_recording`: stop first, reset the pause flag, open the writer, create the
        mixer, then bring up the microphone and the system capture as enabled. */
    method StartRecording(pid: int, micDevice: Option<string>, env: StartEnvironment)
      returns (r: Result<(), string>)
      modifies this
      ensures r == StartResult(old(writerOpen), pid, micDevice, env)
      ensures Started(old(paused), old(writerOpen), old(mixer), pid, micDevice, env)
      ensures r.Ok? ==> !paused && writerOpen && mixer == Some(EnabledSources(pid, micDevice)) &&
                        capturing == EnabledSources(pid, micDevice).system
    {
      var stopped := StopRecording(env.finalizeError);
      if stopped.Err? {
        return stopped;
      }
      paused := false;
      if env.writerError.Some? {
        return Err("Failed to create WAV writer: " + env.writerError.value);
      }
      writerOpen := true;
      mixer := Some(EnabledSources(pid, micDevice));
      r := StartStreams(pid, micDevice, env);
    }

    /** The microphone and system-capture steps of `start_recording`. */
    method StartStreams(pid: int, micDevice: Option<string>, env: StartEnvironment) returns (r: Result<(), string>)
      requires !capturing && !micStreaming
      modifies this
      ensures r == StreamsResult(pid, micDevice, env)
      ensures paused == old(paused) && writerOpen == old(writerOpen) && mixer == old(mixer)
      ensures var sources := EnabledSources(pid, micDevice);
              var listFails := sources.mic && micDevice.value != "Default" && env.deviceListError.Some?;
              && micStreaming == (sources.mic && !listFails && env.micFound && env.micPlays)
              && capturing == (sources.system && !listFails && env.windowFound && env.captureError.None?)
    {
      var sources := EnabledSources(pid, micDevice);
      if sources.mic {
        var name := micDevice.value;
        if name != "Default" && env.deviceListError.Some? {
          return Err(env.deviceListError.value);
        }
        if env.micFound && env.micPlays {
          micStreaming := true;
        }
      }
      if sources.system {
        if !env.windowFound {
          return Err("No window found for target app");
        }
        if env.captureError.Some? {
          return Err("Failed to start capture: " + env.captureError.value);
        }
        capturing := true;
      }
      r := Ok(());
    }
  }

  //---------------------------------------------------------------- sample layout

  /** `out` alternates `left[i]`, `right[i]`: the interleaved stereo the mixer expects. */
  predicate IsInterleaving<T(==)>(out: seq<T>, left: seq<T>, right: seq<T>) {
    |left| == |right| && |out| == 2 * |left| &&
    forall j :: 0 <= j < |out| ==> out[j] == if j % 2 == 0 then left[j / 2] else right[j / 2]
  }

  /** The samples at even positions. */
  function Evens<T>(s: seq<T>): (r: seq<T>)
    ensures |r| == (|s| + 1) / 2
    decreases |s|
  {
    if |s| < 2 then s else [s[0]] + Evens(s[2..])
  }

  /** The samples at odd positions. */
  function Odds<T>(s: seq<T>): (r: seq<T>)
    ensures |r| == |s| / 2
    decreases |s|
  {
    if |s| < 2 then [] else [s[1]] + Odds(s[2..])
  }

  /** An interleaving splits back into its two channels. */
  lemma {:induction false} Deinterleave<T>(out: seq<T>, left: seq<T>, right: seq<T>)
    requires IsInterleaving(out, left, right)
    ensures Evens(out) == left && Odds(out) == right
    decreases |left|
  {
    if left != [] {
      var rest := out[2..];
      forall j | 0 <= j < |rest|
        ensures rest[j] == if j % 2 == 0 then left[1..][j / 2] else right[1..][j / 2]
      {
        assert rest[j] == out[j + 2];
        assert (j + 2) % 2 == j % 2 && (j + 2) / 2 == j / 2 + 1;
      }
      Deinterleave(rest, left[1..], right[1..]);
      assert out[0] == left[0] && out[1] == right[0];
    }
  }

  /** Planar stereo `[L0 … Ln-1][R0 … Rn-1]` becomes `L0, R0, L1, R1, …`; an odd
      trailing sample is not read. */
  method InterleavePlanar<T(==)>(samples: seq<T>) returns (pushed: seq<T>)
    ensures var frames := |samples| / 2;
            IsInterleaving(pushed, samples[..frames], samples[frames..2 * frames])
  {
    var frames := |samples| / 2;
    var left, right := samples[..frames], samples[frames..2 * frames];
    pushed := [];
    for i := 0 to frames
      invariant |pushed| == 2 * i
      invariant forall j :: 0 <= j < |pushed| ==> pushed[j] == if j % 2 == 0 then left[j / 2] else right[j / 2]
    {
      pushed := pushed + [left[i]] + [right[i]];
    }
  }

  /** Mono: every sample is pushed twice, in order. */
  method DuplicateMono<T(==)>(samples: seq<T>) returns (pushed: seq<T>)
    ensures IsInterleaving(pushed, samples, samples)
  {
    pushed := [];
    for i := 0 to |samples|
      invariant |pushed| == 2 * i
      invariant forall j :: 0 <= j < |pushed| ==> pushed[j] == samples[j / 2]
    {
      pushed := pushed + [samples[i], samples[i]];
    }
  }

  /** Interleaved stereo or any other layout: the samples as they are. */
  method PassThrough<T(==)>(samples: seq<T>) returns (pushed: seq<T>)
    ensures pushed == samples
  {
    pushed := [];
    for i := 0 to |samples|
      invariant pushed == samples[..i]
    {
      pushed := pushed + [samples[i]];
    }
  }

  /** The `AudioStreamBasicDescription` fields the callback reads. */
  datatype StreamFormat = StreamFormat(channelsPerFrame: nat, formatFlags: bv32)

  /** `kAudioFormatFlagIsNonInterleaved`. */
  const NonInterleavedFlag: bv32 := 1 << 5

  /** Planar flag and channel count; without a format description, interleaved stereo. */
  function ChannelLayout(format: Option<StreamFormat>): (r: (bool, nat))
    ensures format.None? ==> r == (false, 2)
    ensures format.Some? ==> r.1 == format.value.channelsPerFrame &&
                             (r.0 <==> format.value.formatFlags & 0x20 != 0)
  {
    match format
    case None => (false, 2)
    case Some(f) => (f.formatFlags & NonInterleavedFlag != 0, f.channelsPerFrame)
  }

  /** A captured sample buffer: no block buffer, or the block's data-pointer status, whether
      the pointer is non-null, its total length in bytes, the memory behind it read as
      `f32` samples, and the format description if there is one. */
  datatype CaptureBuffer<T> =
    | NoBlock
    | Block(status: int, hasData: bool, totalLength: nat, memory: seq<T>, format: Option<StreamFormat>)

  /** The callback reads sample data only from a usable block. */
  predicate Readable<T>(b: CaptureBuffer<T>) {
    b.Block? && b.status == 0 && b.hasData && b.totalLength > 0
  }

  /** `OutputWrapper::did_output_sample_buffer`: the samples offered to the mixer's ring
      buffer (which may drop some when full). */
  method DidOutputSampleBuffer<T(==)>(buffer: CaptureBuffer<T>, paused: bool) returns (pushed: seq<T>)
    requires buffer.Block? ==> |buffer.memory| >= buffer.totalLength / 4
    ensures !Readable(buffer) || paused ==> pushed == []
    ensures Readable(buffer) && !paused ==>
              var samples := buffer.memory[..buffer.totalLength / 4];
              var (planar, channels) := ChannelLayout(buffer.format);
              var frames := |samples| / 2;
              if planar && channels == 2 then IsInterleaving(pushed, samples[..frames], samples[frames..2 * frames])
              else if channels == 1 then IsInterleaving(pushed, samples, samples)
              else pushed == samples
  {
    pushed := [];
    if !Readable(buffer) {
      return;
    }
    var samples := buffer.memory[..buffer.totalLength / 4];
    var (planar, channels) := ChannelLayout(buffer.format);
    if !paused {
      if planar && channels == 2 {
        pushed := InterleavePlanar(samples);
      } else if channels == 1 {
        pushed := DuplicateMono(samples);
      } else {
        pushed := PassThrough(samples);
      }
    }
  }

  /** What the mixer receives splits back into the source channels: the two planes of a
      planar buffer, or the mono signal on both channels. */
  lemma PushedChannels<T>(buffer: CaptureBuffer<T>, pushed: seq<T>)
    requires Readable(buffer) && |buffer.memory| >= buffer.totalLength / 4
    requires var samples := buffer.memory[..buffer.totalLength / 4];
             var (planar, channels) := ChannelLayout(buffer.format);
             var frames := |samples| / 2;
             if planar && channels == 2 then IsInterleaving(pushed, samples[..frames], samples[frames..2 * frames])
             else if channels == 1 then IsInterleaving(pushed, samples, samples)
             else pushed == samples
    ensures var samples := buffer.memory[..buffer.totalLength / 4];
            var (planar, channels) := ChannelLayout(buffer.format);
            var frames := |samples| / 2;
            && (planar && channels == 2 ==>
                  Evens(pushed) == samples[..frames] && Odds(pushed) == samples[frames..2 * frames])
            && (!(planar && channels == 2) && channels == 1 ==> Evens(pushed) == samples && Odds(pushed) == samples)
  {
    var samples := buffer.memory[..buffer.totalLength / 4];
    var (planar, channels) := ChannelLayout(buffer.format);
    var frames := |samples| / 2;
    if planar && channels == 2 {
      Deinterleave(pushed, samples[..frames], samples[frames..2 * frames]);
    } else if channels == 1 {
      Deinterleave(pushed, samples, samples);
    }
  }
}
