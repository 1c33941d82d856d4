/**
 * The capture state of `AudioCapture`: the running flag, the ffmpeg process
 * and output stream handles, and the list of captured chunks, with the
 * accessors that concatenate and measure them.
 */
module Capture {
  import opened Wrappers
  import opened Bytes
  import Wav

  datatype CaptureError = AlreadyRunning | NoAudioData

  /** The options of `start` that the state depends on; device, rate and channel options only reach ffmpeg. */
  datatype StartOptions = StartOptions(outputPath: Option<string>)

  /** `if (outputPath)`: null and the empty string are falsy. */
  predicate Truthy(path: Option<string>) {
    path.Some? && path.value != ""
  }

  datatype AudioInfo = AudioInfo(size: nat, duration: real, format: string)

  /** `Buffer.concat`: the chunks joined in order. */
  function Concat(chunks: seq<seq<byte>>): (r: seq<byte>)
    ensures chunks == [] ==> r == []
    ensures |chunks| == 1 ==> r == chunks[0]
  {
    if chunks == [] then [] else Concat(chunks[..|chunks| - 1]) + chunks[|chunks| - 1]
  }

  function TotalLength(chunks: seq<seq<byte>>): nat {
    if chunks == [] then 0 else TotalLength(chunks[..|chunks| - 1]) + |chunks[|chunks| - 1]|
  }

  /** The concatenation is as long as all chunks together and empty exactly when every chunk is. */
  lemma {:induction false} ConcatLength(chunks: seq<seq<byte>>)
    ensures |Concat(chunks)| == TotalLength(chunks)
    ensures Concat(chunks) == [] <==> forall i :: 0 <= i < |chunks| ==> chunks[i] == []
  {
    if chunks != [] {
      var init := chunks[..|chunks| - 1];
      ConcatLength(init);
      assert forall i :: 0 <= i < |init| ==> init[i] == chunks[i];
    }
  }

  /** Chunk i occupies the bytes from the total length of the chunks before it. */
  lemma {:induction false} ConcatAt(chunks: seq<seq<byte>>, i: nat)
    requires i < |chunks|
    ensures TotalLength(chunks[..i]) + |chunks[i]| <= |Concat(chunks)|
    ensures Concat(chunks)[TotalLength(chunks[..i])..TotalLength(chunks[..i]) + |chunks[i]|] == chunks[i]
  {
    var init := chunks[..|chunks| - 1];
    ConcatLength(chunks);
    ConcatLength(init);
    if i == |chunks| - 1 {
      assert chunks[..i] == init;
    } else {
      ConcatAt(init, i);
      assert init[..i] == chunks[..i];
    }
  }

  /**
   * `calculateDuration`: seconds of audio after the 44-byte header, assuming 44100 Hz stereo
   * 16-bit (176400 bytes per second); zero when nothing follows the header.
   */
  function CalculateDuration(audioData: seq<byte>): (seconds: real)
    ensures 0.0 <= seconds
    ensures |audioData| <= 44 <==> seconds == 0.0
    ensures |audioData| > 44 ==> seconds * 176400.0 == (|audioData| - 44) as real
  {
    var dataSize := |audioData| - 44;
    var bytesPerSecond := 44100 * 2 * 2;
    if dataSize > 0 then dataSize as real / bytesPerSecond as real else 0.0
  }

  /**
   * The duration `getAudioInfo` reports for a buffer the codec wrote holds half the seconds
   * `analyze` reports for it: the codec writes mono, while the duration assumes stereo.
   */
  lemma DurationOfEncoded(samples: seq<real>)
    requires Wav.Encode(samples).Ok? && samples != []
    ensures CalculateDuration(Wav.Encode(samples).value) * 2.0 == |samples| as real / 44100.0
  {
    Wav.EncodeLayout(samples);
  }

  class AudioCapture {
    var isCapturing: bool
    /** Whether `ffmpegProcess` holds a process. */
    var hasProcess: bool
    /** `outputStream`: None for null, else the bytes written to it so far. */
    var outputStream: Option<seq<byte>>
    /** The chunks received since the last `start`, in arrival order. */
    var capturedData: seq<seq<byte>>
    /** The `outputPath` the data handler of the last `start` writes to. */
    var outputPath: Option<string>

    /** A process runs exactly while capturing. */
    predicate Valid()
      reads this
    {
      hasProcess == isCapturing
    }

    constructor()
      ensures Valid()
      ensures !isCapturing && !hasProcess && outputStream.None? && capturedData == [] && outputPath.None?
    {
      isCapturing := false;
      hasProcess := false;
      outputStream := None;
      capturedData := [];
      outputPath := None;
    }

    /**
     * `start`: throws "Audio capture is already running" while capturing, changing nothing;
     * otherwise marks capturing, forgets earlier chunks and spawns ffmpeg.
     */
    method Start(options: StartOptions) returns (r: Outcome<CaptureError>)
      requires Valid()
      modifies this
      ensures Valid()
      ensures old(isCapturing) ==> r == Fail(AlreadyRunning) && unchanged(this)
      ensures !old(isCapturing) ==>
        && r == Pass && isCapturing && hasProcess && capturedData == []
        && outputPath == options.outputPath && outputStream == old(outputStream)
    {
      if isCapturing {
        return Fail(AlreadyRunning);
      }
      isCapturing := true;
      capturedData := [];
      outputPath := options.outputPath;
      hasProcess := true;
      return Pass;
    }

    /**
     * The ffmpeg stdout `data` handler: appends the chunk and, when the output path is truthy
     * (present and not empty), writes it to the output stream, opening the stream on first use.
     */
    method OnChunk(chunk: seq<byte>)
      modifies this
      ensures capturedData == old(capturedData) + [chunk]
      ensures Truthy(outputPath) ==> outputStream == Some(old(outputStream).GetOr([]) + chunk)
      ensures !Truthy(outputPath) ==> outputStream == old(outputStream)
      ensures isCapturing == old(isCapturing) && hasProcess == old(hasProcess) && outputPath == old(outputPath)
    {
      capturedData := capturedData + [chunk];
      if Truthy(outputPath) {
        if outputStream.None? {
          outputStream := Some([]);
        }
        outputStream := Some(outputStream.value + chunk);
      }
    }

    /** `stop`: nothing when idle; otherwise clears the flag, kills the process and ends the stream. */
    method Stop()
      requires Valid()
      modifies this
      ensures Valid()
      ensures !old(isCapturing) ==> unchanged(this)
      ensures old(isCapturing) ==>
        && !isCapturing && !hasProcess && outputStream.None?
        && capturedData == old(capturedData) && outputPath == old(outputPath)
    {
      if !isCapturing {
        return;
      }
      isCapturing := false;
      hasProcess := false;
      outputStream := None;
    }

    /** `getCapturedData`: every chunk received, concatenated in arrival order. */
    function GetCapturedData(): (r: seq<byte>)
      reads this
      ensures |r| == TotalLength(capturedData)
    {
      ConcatLength(capturedData);
      Concat(capturedData)
    }

    /** `saveToFile`: rejects with "No audio data captured" when nothing was captured; the write itself is I/O. */
    method SaveToFile() returns (r: Outcome<CaptureError>)
      ensures r == Fail(NoAudioData) <==> forall i :: 0 <= i < |capturedData| ==> capturedData[i] == []
      ensures r.Pass? || r == Fail(NoAudioData)
    {
      var data := GetCapturedData();
      ConcatLength(capturedData);
      if |data| == 0 {
        return Fail(NoAudioData);
      }
      return Pass;
    }

    /** `getAudioInfo`: size and duration of the captured data, in WAV format. */
    function GetAudioInfo(): (info: AudioInfo)
      reads this
      ensures info.size == TotalLength(capturedData)
      ensures info.duration == CalculateDuration(GetCapturedData())
      ensures info.format == "WAV"
    {
      var data := GetCapturedData();
      AudioInfo(|data|, CalculateDuration(data), "WAV")
    }
  }

  /**
   * A session: chunks arriving between `start` and `stop` are exactly what `getCapturedData`
   * returns afterwards, and a second `start` while running is refused.
   */
  method Session(a: seq<byte>, b: seq<byte>) returns (data: seq<byte>, second: Outcome<CaptureError>)
    ensures data == a + b
    ensures second == Fail(AlreadyRunning)
  {
    var capture := new AudioCapture();
    var first := capture.Start( StartOptions(None));
    second := capture.Start( StartOptions(Some("out.wav")));
    capture.OnChunk(a);
    capture.OnChunk(b);
    capture.Stop();
    data := capture.GetCapturedData();
    assert capture.capturedData == [a, b];
    assert [a, b][..1] == [a] && [a][..0] == [];
    assert Concat([a]) == [] + a == a;
  }


  /** An empty output path is kept by `start` but is falsy, so chunks reach no stream. */
  method SessionWithEmptyPath(chunk: seq<byte>) returns (data: seq<byte>, stream: Option<seq<byte>>)
    ensures data == chunk
    ensures stream.None?
  {
    var capture := new AudioCapture();
    var started := capture.Start(StartOptions(Some("")));
    capture.OnChunk(chunk);
    stream := capture.outputStream;
    data := capture.GetCapturedData();
    assert capture.capturedData == [chunk];
    assert [chunk][..0] == [];
    assert Concat([chunk]) == [] + chunk;
  }
}
