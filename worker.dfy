/**
 * What one run of the encoding worker does (gui.py:153-263), as a function
 * of the globals it starts from, the UI settings it reads, and the outcomes
 * of its external calls. The class in EncoderApp executes it step by step.
 */
module Worker {
  import opened Wrappers
  import opened Paths
  import opened Profiles
  import opened Progress
  import opened ChunkScheduler

  /** The UI values the worker reads when it runs: the model choice and the chunking box. */
  datatype Settings = Settings(model: string, chunking: bool)

  /**
   * The outcomes of the worker's calls to the outside: whether the output
   * folder exists or `os.makedirs` succeeds, whether ffmpeg is on PATH,
   * whether the ffmpeg run succeeds, the temporary file's name, which models
   * loaded at start-up, the loaded and converted waveform (None if loading
   * raised), and whether saving and recompressing succeed.
   */
  datatype Environment<S> = Environment(
    outputDirReady: bool,
    ffmpegInstalled: bool,
    transcodeSucceeds: bool,
    tempWav: Path,
    loaded: set<Variant>,
    audio: Option<seq<S>>,
    saveSucceeds: bool)

  /** The module-level state the worker reads and writes. */
  datatype Globals = Globals(inputFile: Path, outputFile: Path, secondsPerChunk: real, progressValue: int, progressMaximum: int)

  /** One ffmpeg invocation: the file converted and the `-ar` rate. */
  datatype Transcode = Transcode(source: Path, sampleRate: nat)

  /** What `torch.save` writes: the whole-file encoding, or the list of chunk encodings. */
  datatype Payload<E> = Whole(frames: E) | Chunks(chunks: seq<E>)

  /** The exceptions the worker catches (gui.py:256-259). */
  datatype JobError =
    | OutputDirError
    | TranscodeError
    | ModelUnavailable
    | LoadError
    | ChunkFailure(cause: ChunkError)
    | EncodeError
    | SaveError

  /** How the worker ended: written, stopped for a missing ffmpeg, or failed. */
  datatype Outcome<E> = Done(path: Path, payload: Payload<E>) | FfmpegMissing | Failed(error: JobError)

  /** A whole run: its outcome, the transcoding it requested, the chunk reports and the final globals. */
  datatype Run<E> = Run(outcome: Outcome<E>, transcode: Option<Transcode>, trace: seq<Report>, globals: Globals)

  /** The worker's run, branch by branch as in gui.py:157-255. */
  function Execute<S, E>(g: Globals, settings: Settings, env: Environment<S>, encode: seq<S> -> Option<E>): Run<E> {
    if !env.outputDirReady then Run(Failed(OutputDirError), None, [], g)
    else if NeedsTranscode(g.inputFile) && !env.ffmpegInstalled then Run(FfmpegMissing, None, [], g)
    else
      var transcode := if NeedsTranscode(g.inputFile) then Some(Transcode(g.inputFile, TranscodeRate(settings.model))) else None;
      if transcode.Some? && !env.transcodeSucceeds then Run(Failed(TranscodeError), transcode, [], g)
      else
        var g1 := if transcode.Some? then g.(inputFile := env.tempWav) else g;
        var variant := SelectVariant(settings.model);
        if variant !in env.loaded then Run(Failed(ModelUnavailable), transcode, [], g1)
        else if env.audio.None? then Run(Failed(LoadError), transcode, [], g1)
        else
          var wav := env.audio.value;
          if !settings.chunking then
            // after `unsqueeze(0)`, `wav.shape[1]` is the channel count
            var g2 := g1.(progressMaximum := Channels(variant));
            match encode(wav)
            case None => Run(Failed(EncodeError), transcode, [], g2)
            case Some(frames) =>
              if !env.saveSucceeds then Run(Failed(SaveError), transcode, [], g2)
              else Run(Done(g.outputFile, Whole(frames)), transcode, [], g2.(progressValue := 0))
          else
            var c := ChunkSize(SampleRate(variant), g.secondsPerChunk);
            var g2 := g1.(progressMaximum := |wav|);
            var r := Schedule(wav, c, encode);
            var trace := ProgressTrace(|wav|, c, Encoded(r));
            var g3 := if trace == [] then g2 else g2.(progressValue := trace[|trace| - 1].Bar());
            match r
            case Failure(e) => Run(Failed(ChunkFailure(e)), transcode, trace, g3)
            case Success(es) =>
              if !env.saveSucceeds then Run(Failed(SaveError), transcode, trace, g3)
              else Run(Done(g.outputFile, Chunks(es)), transcode, trace, g3.(progressValue := 0))
  }

  /**
   * A missing ffmpeg, for an input that needs it, ends the job before any
   * model or encoder work: nothing is transcoded, encoded or changed (gui.py:173-177).
   */
  lemma FfmpegMissingEncodesNothing<S, E>(g: Globals, settings: Settings, env: Environment<S>, encode: seq<S> -> Option<E>)
    requires env.outputDirReady && NeedsTranscode(g.inputFile) && !env.ffmpegInstalled
    ensures Execute(g, settings, env, encode) == Run(FfmpegMissing, None, [], g)
  {
  }

  /**
   * Transcoding is requested exactly for inputs not ending in ".wav" (once the
   * output folder is ready and ffmpeg is present), for the selected input, at
   * 48000 Hz for "48kHz" and 24000 Hz otherwise, which is the native rate of
   * the model that then encodes it (gui.py:161-172, 178).
   */
  lemma TranscodeOnlyForNonWav<S, E>(g: Globals, settings: Settings, env: Environment<S>, encode: seq<S> -> Option<E>)
    ensures Execute(g, settings, env, encode).transcode.Some? <==>
      env.outputDirReady && NeedsTranscode(g.inputFile) && env.ffmpegInstalled
    ensures Execute(g, settings, env, encode).transcode.Some? ==>
      && Execute(g, settings, env, encode).transcode.value.source == g.inputFile
      && Execute(g, settings, env, encode).transcode.value.sampleRate == SampleRate(SelectVariant(settings.model))
      && (Execute(g, settings, env, encode).transcode.value.sampleRate == 48000 <==> settings.model == Choice48)
    ensures env.outputDirReady && !NeedsTranscode(g.inputFile) ==>
      Execute(g, settings, env, encode).globals.inputFile == g.inputFile
  {
    TranscodeRateIsModelRate(settings.model);
  }

  /**
   * A job that finishes has written the output file chosen at submission,
   * with every external step succeeding, and leaves the bar at 0 (gui.py:248-255).
   */
  lemma DoneWritesOutputFile<S, E>(g: Globals, settings: Settings, env: Environment<S>, encode: seq<S> -> Option<E>)
    requires Execute(g, settings, env, encode).outcome.Done?
    ensures Execute(g, settings, env, encode).outcome.path == g.outputFile
    ensures Execute(g, settings, env, encode).globals.progressValue == 0
    ensures env.outputDirReady && env.saveSucceeds && env.audio.Some?
    ensures SelectVariant(settings.model) in env.loaded
    ensures NeedsTranscode(g.inputFile) ==> env.ffmpegInstalled && env.transcodeSucceeds
  {
  }

  /**
   * With chunking and a positive chunk size, a finished job saved one
   * encoding per window, in window order, and pushed one report per window
   * (gui.py:217-248).
   */
  lemma ChunkedJobEncodesEveryWindow<S, E>(g: Globals, settings: Settings, env: Environment<S>, encode: seq<S> -> Option<E>)
    requires settings.chunking && env.audio.Some?
    requires ChunkSize(SampleRate(SelectVariant(settings.model)), g.secondsPerChunk) > 0
    requires Execute(g, settings, env, encode).outcome.Done?
    ensures
      var c := ChunkSize(SampleRate(SelectVariant(settings.model)), g.secondsPerChunk);
      var ws := Windows(env.audio.value, c);
      var run := Execute(g, settings, env, encode);
      && run.outcome.payload.Chunks?
      && |run.outcome.payload.chunks| == |ws| == Count(|env.audio.value|, c)
      && (forall k :: 0 <= k < |ws| ==> encode(ws[k]).Some? && run.outcome.payload.chunks[k] == encode(ws[k]).value)
      && |run.trace| == |ws|
  {
    var c := ChunkSize(SampleRate(SelectVariant(settings.model)), g.secondsPerChunk);
    EncodeWindowsMeaning(encode, Windows(env.audio.value, c));
    WindowsCount(env.audio.value, c);
  }

  /**
   * When the engine raises on a window, the job fails naming that window;
   * the reports pushed are those of the windows before it, and the engine
   * accepted each of them.
   */
  lemma ChunkFailureStopsAtWindow<S, E>(g: Globals, settings: Settings, env: Environment<S>, encode: seq<S> -> Option<E>, j: nat)
    requires settings.chunking && env.audio.Some?
    requires Execute(g, settings, env, encode).outcome == Failed(ChunkFailure(EncodeFailed(j)))
    ensures
      var c := ChunkSize(SampleRate(SelectVariant(settings.model)), g.secondsPerChunk);
      var ws := Windows(env.audio.value, c);
      && c > 0
      && j < |ws|
      && encode(ws[j]).None?
      && (forall k :: 0 <= k < j ==> encode(ws[k]).Some?)
      && |Execute(g, settings, env, encode).trace| == j
  {
    var c := ChunkSize(SampleRate(SelectVariant(settings.model)), g.secondsPerChunk);
    if c > 0 {
      EncodeWindowsMeaning(encode, Windows(env.audio.value, c));
    }
  }

  /**
   * The chunk-length check that does not return has this consequence: a
   * chunked job with a length of one sample or more backwards saves an empty
   * list of chunks and reports success, whatever the audio.
   */
  lemma NegativeChunkLengthSavesNoChunks<S, E>(g: Globals, settings: Settings, env: Environment<S>, encode: seq<S> -> Option<E>)
    requires settings.chunking && env.outputDirReady && env.audio.Some? && env.saveSucceeds
    requires NeedsTranscode(g.inputFile) ==> env.ffmpegInstalled && env.transcodeSucceeds
    requires SelectVariant(settings.model) in env.loaded
    requires SampleRate(SelectVariant(settings.model)) as real * g.secondsPerChunk <= -1.0
    ensures Execute(g, settings, env, encode).outcome == Done(g.outputFile, Chunks([]))
    ensures Execute(g, settings, env, encode).trace == []
  {
    ChunkSizeSign(SampleRate(SelectVariant(settings.model)), g.secondsPerChunk);
  }
}
